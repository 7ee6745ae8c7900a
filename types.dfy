/** The records the conversation client exchanges with its backend and keeps in
    its component state, one datatype per declaration of types.ts. */
module Types {

  import opened Wrappers

  /** The five operating modes of the client. */
  datatype AppMode = Chat | Search | Report | Presentation | Drawing

  /** Who wrote a message. */
  datatype Role = User | Ai | System

  datatype Source = Source(title: string, url: string)

  /** The optional extras a message may carry. */
  datatype Meta = Meta(
    model: Option<string>,
    image: Option<string>,
    mime: Option<string>,
    fileName: Option<string>,
    docUrl: Option<string>,
    sources: Option<seq<Source>>)

  datatype Message = Message(
    id: string,
    role: Role,
    text: string,
    thinking: Option<string>,
    timestamp: int,
    meta: Option<Meta>)

  /** An entry of the session directory, as the backend lists it. */
  datatype Session = Session(id: string, title: string, preview: string, updatedAt: int)

  datatype Density = Detailed | Brief

  datatype PptMode = Hybrid | Geometric | AiVisual

  /** Presentation options. */
  datatype PptOptions = PptOptions(
    length: int,
    density: Density,
    theme: string,
    pptMode: PptMode,
    visualStyle: string,
    language: string,
    audience: string)

  datatype Status = Success | Failure

  /** The backend's answer to a send, tagged by its status. */
  datatype ApiResponse = ApiResponse(
    status: Status,
    reply: Option<string>,
    error: Option<string>,
    model: Option<string>,
    image: Option<string>,
    mime: Option<string>,
    thinking: Option<string>)

  /** The part of a browser `File` the controller reads: its name and MIME type. */
  datatype StagedFile = StagedFile(name: string, mimeType: string)

  /** One entry of a stored session's log, as the backend returns it. */
  datatype RawLog = RawLog(role: Role, text: string)
}
