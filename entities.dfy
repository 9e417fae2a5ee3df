/**
 * The records the pages receive from the backend services. Instants are
 * integers (milliseconds); date parsing and formatting are not modelled.
 */
module Entities {
  import opened Wrappers

  /** A time-boxed topic students submit contributions against. */
  datatype Topic = Topic(id: string, topicName: string, facultyId: string, releaseDate: int, endDate: int)

  /** The three fields the update dialog edits; a cleared date input is `None`. */
  datatype TopicDraft = TopicDraft(topicName: string, releaseDate: Option<int>, endDate: Option<int>)

  /** A file already stored by the server, as listed with a contribution. */
  datatype StoredFile = StoredFile(id: string, fileName: string, fileType: string, filePath: string)

  /** A contribution; `statusName` is `statusID?.statusName`. */
  datatype Contribution = Contribution(
    id: string, title: string, content: string, statusName: Option<string>, files: seq<StoredFile>)

  /** A file chosen in the browser; `handle` tells apart two files that share a name. */
  datatype LocalFile = LocalFile(name: string, fileType: string, handle: nat)

  datatype Role = Role(id: string, roleName: string)
  datatype Faculty = Faculty(id: string, facultyName: string)

  /** A user as the user service lists it; role and faculty are populated references. */
  datatype User = User(
    id: string, username: string, email: string,
    role: Option<Role>, faculty: Option<Faculty>, avatar: Option<string>)

  /** A value appended to a FormData buffer: text, or a file blob. */
  datatype FormValue = Text(text: string) | Blob(file: LocalFile)

  /** One `formData.append(key, value)` entry. */
  datatype FormEntry = FormEntry(key: string, value: FormValue)

  /** The snackbar triple several pages keep. */
  datatype Severity = Success | Error
  datatype Snackbar = Snackbar(open: bool, message: string, severity: Severity)
}
