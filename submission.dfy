/** The requests the feed sends when an edit is submitted or a post is
    deleted: their method, route and form fields. */
module Submission {
  import opened Records

  /** An image file chosen in the edit form. */
  datatype File = File(name: string)

  /** What the edit form hands to the submit handler. */
  datatype PostData = PostData(title: string, content: string, image: Option<File>)

  datatype HttpMethod = HttpPost | HttpPut | HttpDelete

  /** A form field holds a file or a string. */
  datatype FormValue = FileValue(file: File) | StringValue(text: string)

  datatype FormEntry = FormEntry(name: string, value: FormValue)

  datatype Request = Request(verb: HttpMethod, path: string, form: seq<FormEntry>)

  const PostRoute := "/feed/post"

  function Names(form: seq<FormEntry>): (names: seq<string>)
    ensures |names| == |form|
    ensures forall i :: 0 <= i < |form| ==> names[i] == form[i].name
  {
    seq(|form|, i requires 0 <= i < |form| => form[i].name)
  }

  /** The `image` field: the new file when one was chosen; otherwise the
      edited post's image when an edit is open, or the empty string. */
  function ImageField(editPost: Option<Snapshot>, data: PostData): FormValue {
    if data.image.Some? then FileValue(data.image.value)
    else if editPost.Some? then StringValue(SnapshotImage(editPost.value))
    else StringValue("")
  }

  /** The request a submit sends: a form of exactly title, content and
      image, as a PUT to the edited post's route when an edit snapshot is
      open and as a POST to the post route otherwise. */
  function SubmitRequest(editPost: Option<Snapshot>, data: PostData): (req: Request)
    ensures Names(req.form) == ["title", "content", "image"]
    ensures req.form[0].value == StringValue(data.title)
    ensures req.form[1].value == StringValue(data.content)
    ensures data.image.Some? ==> req.form[2].value == FileValue(data.image.value)
    ensures data.image.None? && editPost.Some? ==>
      req.form[2].value == StringValue(SnapshotImage(editPost.value))
    ensures data.image.None? && editPost.None? ==> req.form[2].value == StringValue("")
    ensures req.verb == HttpPut <==> editPost.Some?
    ensures req.verb == HttpPost <==> editPost.None?
    ensures editPost.None? ==> req.path == PostRoute
    ensures editPost.Some? ==> req.path == PostRoute + "/" + SnapshotId(editPost.value)
  {
    var form := [
      FormEntry("title", StringValue(data.title)),
      FormEntry("content", StringValue(data.content)),
      FormEntry("image", ImageField(editPost, data))];
    assert Names(form) == ["title", "content", "image"];
    if editPost.Some? then Request(HttpPut, PostRoute + "/" + SnapshotId(editPost.value), form)
    else Request(HttpPost, PostRoute, form)
  }

  /** The request a delete sends: a DELETE without a form to the post's route. */
  function DeleteRequest(postId: string): (req: Request)
    ensures req.verb == HttpDelete && req.form == []
    ensures req.path == PostRoute + "/" + postId
  {
    Request(HttpDelete, PostRoute + "/" + postId, [])
  }
}
