/** Post records as the feed page holds them, and the three rules by which a
    post that arrives from the backend becomes a record of the page: one for
    the first load when the page mounts, one for a pushed "create" event and
    one for a page load. */
module Records {

  datatype Option<+T> = None | Some(value: T)

  /** The author reference a post may embed. */
  datatype User = User(name: string)

  /** The value of a post's `imageUrl` property: the property may be missing,
      be null, or hold a string. */
  datatype ImageRef = Undefined | Null | Url(path: string)

  /** A post record. `author` is only set on records ingested from a pushed
      "create" event; `None` means the property is missing. */
  datatype Post = Post(
    id: string,
    title: string,
    content: string,
    imageUrl: ImageRef,
    user: Option<User>,
    creator: Option<string>,
    createdAt: string,
    author: Option<string>)

  /** The prefix a page load puts in front of a present image path. */
  const ImageBase := "https://ecommerce-nodejs-backend.onrender.com/"

  /** The author name used when a pushed post carries no user. */
  const UnknownAuthor := "Unknown"

  /** JavaScript truthiness of an `imageUrl` value: only a non-empty string. */
  predicate IsPresent(r: ImageRef) {
    r.Url? && r.path != ""
  }

  /** The string JavaScript makes of an `imageUrl` value, in a template
      literal or when it is appended to a form. */
  function ImageText(r: ImageRef): string {
    match r
    case Undefined => "undefined"
    case Null => "null"
    case Url(p) => p
  }

  /** The display name of a post's author: the user's name, or the
      "Unknown" sentinel when the post carries no user. */
  function AuthorName(user: Option<User>): string {
    match user
    case Some(u) => u.name
    case None => UnknownAuthor
  }

  /** The rule of the first load: every field is copied and `imageUrl` is
      replaced by its string form, so that it is always a string, even for a
      post without an image. */
  function Mounted(p: Post): (r: Post)
    ensures r.(imageUrl := p.imageUrl) == p
    ensures r.imageUrl.Url? && r.imageUrl.path == ImageText(p.imageUrl)
    ensures p.imageUrl.Url? ==> r.imageUrl == p.imageUrl
  {
    p.(imageUrl := Url(ImageText(p.imageUrl)))
  }

  /** The rule of a pushed "create": every field is copied, a missing or
      empty `imageUrl` becomes null and `author` is derived from `user`. */
  function Pushed(p: Post): (r: Post)
    ensures r.(imageUrl := p.imageUrl, author := p.author) == p
    ensures IsPresent(p.imageUrl) ==> r.imageUrl == p.imageUrl
    ensures !IsPresent(p.imageUrl) ==> r.imageUrl == Null
    ensures r.author == Some(AuthorName(p.user))
  {
    p.(imageUrl := if IsPresent(p.imageUrl) then p.imageUrl else Null,
       author := Some(AuthorName(p.user)))
  }

  /** The rule of a page load: every field is copied, a present image path
      is prefixed with the backend's base and any other value becomes null. */
  function Loaded(p: Post): (r: Post)
    ensures r.(imageUrl := p.imageUrl) == p
    ensures IsPresent(p.imageUrl) ==> r.imageUrl == Url(ImageBase + p.imageUrl.path)
    ensures !IsPresent(p.imageUrl) ==> r.imageUrl == Null
  {
    p.(imageUrl := if IsPresent(p.imageUrl) then Url(ImageBase + p.imageUrl.path) else Null)
  }

  /** The three rules do not agree. For a post with an image, the first load
      and a pushed create keep the path as it came while a page load prefixes
      it; for a post without one, a pushed create and a page load store null
      while the first load stores a string. */
  lemma ImageRulesDisagree(p: Post)
    ensures IsPresent(p.imageUrl) ==>
      Mounted(p).imageUrl == Pushed(p).imageUrl == p.imageUrl &&
      Loaded(p).imageUrl != p.imageUrl
    ensures !IsPresent(p.imageUrl) ==>
      Pushed(p).imageUrl == Loaded(p).imageUrl == Null &&
      Mounted(p).imageUrl != Null
  {
  }

  /** What `{ ...found }` makes of the result of a search: a copy of the
      post, or an empty object when no post was found. */
  datatype Snapshot = Copy(post: Post) | EmptyCopy

  function SnapshotOf(found: Option<Post>): Snapshot {
    match found
    case Some(p) => Copy(p)
    case None => EmptyCopy
  }

  /** The id of a snapshot as a template literal renders it. */
  function SnapshotId(s: Snapshot): string {
    match s
    case Copy(p) => p.id
    case EmptyCopy => "undefined"
  }

  /** The image of a snapshot as a form field renders it. */
  function SnapshotImage(s: Snapshot): string {
    match s
    case Copy(p) => ImageText(p.imageUrl)
    case EmptyCopy => "undefined"
  }
}
