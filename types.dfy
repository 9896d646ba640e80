/** The records the application passes around: reports, users, chat messages and grounded answers. */
module Types {
  import opened Wrappers

  /** Whether a report is about a pet someone lost or a pet someone found. */
  datatype PostType = Lost | Found

  /** A latitude/longitude pair, carried through unchanged. */
  datatype GeoPoint = GeoPoint(lat: real, lng: real)

  /** A report in the store; `createdAt` is a millisecond timestamp. */
  datatype PetPost = PetPost(
    id: string,
    kind: PostType,
    userId: string,
    userName: string,
    photoUrl: string,
    breed: string,
    color: string,
    size: string,
    description: string,
    location: GeoPoint,
    createdAt: int)

  /** What the report form hands over: a report without id, timestamp or author. */
  datatype NewPostData = NewPostData(
    kind: PostType,
    breed: string,
    color: string,
    size: string,
    description: string,
    photoUrl: string,
    location: GeoPoint)

  /** The signed-in user. */
  datatype User = User(uid: string, displayName: Option<string>, email: Option<string>, photoUrl: Option<string>)

  /** A cited place; the title is absent when the maps chunk had none. */
  datatype GroundingSource = GroundingSource(uri: string, title: Option<string>)

  /**
   * The answer of a places lookup: its text and its de-duplicated citations. The
   * text is absent when the service's `response.text` was `undefined`.
   */
  datatype GroundedResponse = GroundedResponse(text: Option<string>, sources: seq<GroundingSource>)

  /** Who wrote a chat message: the person using the app or the model. */
  datatype Role = FromUser | FromModel

  datatype ChatMessage = ChatMessage(role: Role, text: string)

  /**
   * A possibly `undefined` string as string concatenation and template literals
   * print it: its text, or the word "undefined".
   */
  function JsText(s: Option<string>): string {
    match s
    case Some(t) => t
    case None => "undefined"
  }

  /** JavaScript truthiness of an optional string: present and not empty. */
  predicate Truthy(s: Option<string>) {
    s.Some? && s.value != ""
  }
}
