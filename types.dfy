/** The record shapes shared by every part of the application: the signed-in
    profile, one chat message, the analytics record and the colour theme. */
module Types {

  datatype Option<+T> = None | Some(value: T)

  /** The display profile created at login. */
  datatype User = User(id: string, firstName: string, lastName: string, avatarUrl: string, createdAt: string)

  /** Who wrote a message: the person at the keyboard or the model. */
  datatype Role = UserRole | AssistantRole

  /** One transcript entry; `id` is the decimal text of a clock reading and
      `timestamp` a clock reading in milliseconds. */
  datatype Message = Message(id: string, role: Role, content: string, timestamp: nat)

  /** One bar of the daily usage chart. */
  datatype DailyUsage = DailyUsage(date: string, count: nat)

  /** The single analytics record kept in the long-lived store. The average
      response time is a real number, where the application uses a double. */
  datatype AnalyticsData = AnalyticsData(
    totalVisits: nat,
    liveUsers: nat,
    uniqueUsers: nat,
    totalSessions: nat,
    totalMessages: nat,
    avgResponseTime: real,
    dailyUsage: seq<DailyUsage>)

  datatype Theme = Light | Dark

  /** The text a theme is stored and compared as. */
  function ThemeName(t: Theme): string
  {
    match t
    case Light => "light"
    case Dark => "dark"
  }
}
