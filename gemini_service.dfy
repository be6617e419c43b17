/** The request the completion client sends: the transcript mapped to the
    hosted API's turn format, followed by the new prompt. The network call
    itself is outside this model. */
module GeminiService {
  import opened Types

  /** One text part of a turn. */
  datatype Part = Part(text: string)

  /** One turn as the hosted API expects it: role "user" or "model". */
  datatype Content = Content(role: string, parts: seq<Part>)

  datatype GenerationConfig = GenerationConfig(
    systemInstruction: string,
    temperature: real,
    topK: Option<nat>,
    topP: Option<real>)

  datatype GenerationRequest = GenerationRequest(model: string, contents: seq<Content>, config: GenerationConfig)

  const ModelName: string := "gemini-3-pro-preview"

  const SystemInstruction: string :=
    "\nYou are Azizbek Mavlonov AI.\n"
    + "You are a highly professional, friendly, smart, and confident AI assistant for the Ultra Chat platform.\n"
    + "Always respond directly to the user's questions. \n"
    + "NEVER introduce yourself unless the user explicitly asks \"Who are you?\" or \"What is your name?\".\n"
    + "Use smart, professional emojis like \U{1F9E0}, \U{2699}\U{FE0F}, \U{1F4CA}, \U{2705}, \U{1F680}, \U{1F60A}, \U{2728} naturally in your responses.\n"
    + "Provide high-quality technical, analytical, and creative assistance.\n"

  /** The API role of a transcript role. */
  function ApiRole(r: Role): string
  {
    if r == UserRole then "user" else "model"
  }

  /** The transcript role an API role stands for. */
  function TranscriptRole(role: string): Role
  {
    if role == "user" then UserRole else AssistantRole
  }

  lemma RolesRoundTrip(r: Role)
    ensures TranscriptRole(ApiRole(r)) == r
    ensures ApiRole(r) == "user" || ApiRole(r) == "model"
  {
  }

  /** Each history message as one turn with a single part holding its text,
      in the same order. */
  function HistoryContents(history: seq<Message>): (contents: seq<Content>)
    ensures |contents| == |history|
    ensures forall i :: 0 <= i < |history| ==>
      contents[i] == Content(ApiRole(history[i].role), [Part(history[i].content)])
  {
    if history == [] then []
    else [Content(ApiRole(history[0].role), [Part(history[0].content)])] + HistoryContents(history[1..])
  }

  /** The role and text of every history message can be read back from the
      turns, and the last turn is the prompt from the user. */
  lemma {:induction false} RequestContentsFaithful(history: seq<Message>, prompt: string)
    ensures var contents := HistoryContents(history) + [Content("user", [Part(prompt)])];
      && |contents| == |history| + 1
      && (forall i :: 0 <= i < |history| ==>
            && TranscriptRole(contents[i].role) == history[i].role
            && |contents[i].parts| == 1 && contents[i].parts[0].text == history[i].content)
      && contents[|history|].role == "user" && contents[|history|].parts == [Part(prompt)]
  {
    var contents := HistoryContents(history) + [Content("user", [Part(prompt)])];
    forall i | 0 <= i < |history|
      ensures TranscriptRole(contents[i].role) == history[i].role
    {
      RolesRoundTrip(history[i].role);
    }
  }

  /** The request of the single-shot call. */
  method ResponseRequest(history: seq<Message>, prompt: string) returns (request: GenerationRequest)
    ensures request.contents == HistoryContents(history) + [Content("user", [Part(prompt)])]
    ensures request.model == ModelName
    ensures request.config == GenerationConfig(SystemInstruction, 0.7, Some(40), Some(0.95))
  {
    var contents := HistoryContents(history);
    contents := contents + [Content("user", [Part(prompt)])];
    request := GenerationRequest(ModelName, contents, GenerationConfig(SystemInstruction, 0.7, Some(40), Some(0.95)));
  }

  /** The request of the streaming call: the same turns as the single-shot
      call, without the top-k and top-p settings. */
  method StreamRequest(history: seq<Message>, prompt: string) returns (request: GenerationRequest)
    ensures request.contents == HistoryContents(history) + [Content("user", [Part(prompt)])]
    ensures request.model == ModelName
    ensures request.config == GenerationConfig(SystemInstruction, 0.7, None, None)
  {
    var contents := HistoryContents(history);
    contents := contents + [Content("user", [Part(prompt)])];
    request := GenerationRequest(ModelName, contents, GenerationConfig(SystemInstruction, 0.7, None, None));
  }
}
