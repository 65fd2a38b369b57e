/** The portal's records (types.ts) and the values shared between the
    controller and its views. */
module Types {

  datatype Option<+T> = None | Some(value: T)

  datatype UserRole = Citizen | Gro

  /** An authenticated identity. */
  datatype User = User(id: string, name: string, role: UserRole, mobile: string)

  /** The marker of one timeline milestone: 'completed' | 'pending' | 'current'. */
  datatype EventStatus = Completed | Pending | Current

  /** A milestone; `title` is the source's `label` (a reserved word here). */
  datatype TimelineEvent = TimelineEvent(title: string, date: string, status: EventStatus)

  datatype GrievanceReply = GrievanceReply(author: string, message: string, date: string)

  /** One grievance. Its `status` is a raw string, as in the source: the
      enumerated values below are the usual ones, but any string may occur. */
  datatype Grievance = Grievance(
    id: string,
    subject: string,
    description: string,
    location: string,
    district: string,
    category: string,
    dateFiled: string,
    status: string,
    files: seq<string>,
    atr: Option<string>,
    lastUpdated: string,
    isAnonymized: bool,
    timeline: seq<TimelineEvent>,
    replies: seq<GrievanceReply>)

  // The string values of the GrievanceStatus enumeration.
  const Submitted: string := "Submitted"
  const UnderReview: string := "Under Review"
  const InProgress: string := "In Progress"
  const PendingStatus: string := "Pending"
  const Resolved: string := "Resolved"
  const Reopened: string := "Reopened"

  /** What the filing wizard hands to the controller on submit; `files`
      holds the names of the attached files. */
  datatype FormData = FormData(
    location: string,
    district: string,
    category: string,
    subject: string,
    description: string,
    files: seq<string>,
    isAnonymized: bool)

  /** The five screens of the single-page application. */
  datatype View = Home | Dashboard | FileGrievance | Track | GrievanceDetails
}
