/** The sequence operations the feed applies to the posts of the visible
    page: the `some` and `findIndex` searches by id, the front insert of a
    pushed create, the replace-by-id of a pushed update and the mapping of a
    fetched page. */
module PostLists {
  import opened Records

  /** True when some record of `s` has the id `id`. */
  predicate HasId(s: seq<Post>, id: string)
    ensures HasId(s, id) <==> exists q :: q in s && q.id == id
  {
    exists i :: 0 <= i < |s| && s[i].id == id
  }

  /** No two records of `s` share an id. */
  ghost predicate UniqueIds(s: seq<Post>) {
    forall i, j :: 0 <= i < j < |s| ==> s[i].id != s[j].id
  }

  /** The first index whose record has the id `id`, or -1 when no record
      has it. */
  function FindIndex(s: seq<Post>, id: string): (i: int)
    ensures -1 <= i < |s|
    ensures i == -1 <==> !HasId(s, id)
    ensures 0 <= i ==> s[i].id == id
    ensures 0 <= i ==> forall j :: 0 <= j < i ==> s[j].id != id
  {
    if |s| == 0 then -1
    else if s[0].id == id then 0
    else
      var k := FindIndex(s[1..], id);
      assert forall j :: 0 < j < |s| ==> s[j] == s[1..][j - 1];
      if k == -1 then -1 else k + 1
  }

  /** The first record with the id `id`, or nothing when no record has it. */
  function FindPost(s: seq<Post>, id: string): (found: Option<Post>)
    ensures found.None? <==> !HasId(s, id)
    ensures found.Some? ==> found.value.id == id && found.value == s[FindIndex(s, id)]
  {
    var i := FindIndex(s, id);
    if i == -1 then None else Some(s[i])
  }

  /** The number of records of `s` that hold `id`. */
  function CountId(s: seq<Post>, id: string): nat {
    if |s| == 0 then 0
    else (if s[0].id == id then 1 else 0) + CountId(s[1..], id)
  }

  lemma {:induction false} CountIdZeroIffAbsent(s: seq<Post>, id: string)
    ensures CountId(s, id) == 0 <==> !HasId(s, id)
  {
    if |s| > 0 {
      CountIdZeroIffAbsent(s[1..], id);
      if s[0].id != id && HasId(s, id) {
        var i :| 0 <= i < |s| && s[i].id == id;
        assert s[1..][i - 1].id == id;
      }
    }
  }

  lemma {:induction false} CountIdOneWhenUnique(s: seq<Post>, id: string)
    requires UniqueIds(s) && HasId(s, id)
    ensures CountId(s, id) == 1
  {
    if s[0].id == id {
      CountIdZeroIffAbsent(s[1..], id);
    } else {
      var i :| 0 <= i < |s| && s[i].id == id;
      assert s[1..][i - 1].id == id;
      CountIdOneWhenUnique(s[1..], id);
    }
  }

  /** The state change of a pushed create on the posts: a record whose id is
      already shown is ignored, a new one is ingested and put in front. */
  function InsertFront(s: seq<Post>, p: Post): (r: seq<Post>)
    ensures HasId(r, p.id)
    ensures HasId(s, p.id) ==> r == s
    ensures !HasId(s, p.id) ==> |r| == |s| + 1 && r[0] == Pushed(p) && r[1..] == s
  {
    if HasId(s, p.id) then s
    else
      var r := [Pushed(p)] + s;
      assert r[0].id == p.id;
      r
  }

  /** Delivering the same create twice is the same as delivering it once,
      and when its id was new it leaves exactly one record with that id. */
  lemma DuplicateCreateYieldsOneRecord(s: seq<Post>, p: Post)
    ensures InsertFront(InsertFront(s, p), p) == InsertFront(s, p)
    ensures !HasId(s, p.id) ==> CountId(InsertFront(s, p), p.id) == 1
  {
    if !HasId(s, p.id) {
      var r := InsertFront(s, p);
      CountIdZeroIffAbsent(s, p.id);
      assert r[1..] == s;
    }
  }

  /** A front insert keeps ids unique: the only new record has a new id. */
  lemma InsertFrontKeepsUnique(s: seq<Post>, p: Post)
    requires UniqueIds(s)
    ensures UniqueIds(InsertFront(s, p))
  {
  }

  /** The state change of a pushed update on the posts: the first record
      with the same id is overwritten, and nothing happens when none has it.
      The length is kept; an unknown id leaves the posts as they were; a
      known id overwrites only the first index that holds it. */
  function ReplaceFirst(s: seq<Post>, p: Post): (r: seq<Post>)
    ensures |r| == |s|
    ensures !HasId(s, p.id) ==> r == s
    ensures HasId(s, p.id) ==>
      var i := FindIndex(s, p.id);
      r[i] == p &&
      (forall j :: 0 <= j < i ==> s[j].id != p.id) &&
      (forall j :: 0 <= j < |s| && j != i ==> r[j] == s[j])
  {
    var i := FindIndex(s, p.id);
    if i > -1 then s[i := p] else s
  }

  /** Applying the same update twice is the same as applying it once. */
  lemma ReplaceFirstIdempotent(s: seq<Post>, p: Post)
    ensures ReplaceFirst(ReplaceFirst(s, p), p) == ReplaceFirst(s, p)
  {
    var r := ReplaceFirst(s, p);
    if HasId(s, p.id) {
      var i := FindIndex(s, p.id);
      assert r[i] == p && forall j :: 0 <= j < i ==> r[j] == s[j];
      assert FindIndex(r, p.id) == i;
    }
  }

  /** An update keeps ids unique, and which ids are shown. */
  lemma ReplaceFirstKeepsIds(s: seq<Post>, p: Post, id: string)
    ensures HasId(ReplaceFirst(s, p), id) <==> HasId(s, id)
    ensures UniqueIds(s) ==> UniqueIds(ReplaceFirst(s, p))
  {
    var r := ReplaceFirst(s, p);
    assert forall j :: 0 <= j < |s| ==> r[j].id == s[j].id;
    if HasId(s, id) {
      var k :| 0 <= k < |s| && s[k].id == id;
      assert r[k].id == id;
    }
    if HasId(r, id) {
      var k :| 0 <= k < |r| && r[k].id == id;
      assert s[k].id == id;
    }
  }

  /** The posts installed by the first load, in fetched order. */
  function MapMounted(items: seq<Post>): (r: seq<Post>)
    ensures |r| == |items|
    ensures forall i :: 0 <= i < |items| ==> r[i] == Mounted(items[i])
  {
    seq(|items|, i requires 0 <= i < |items| => Mounted(items[i]))
  }

  /** The posts installed by a page load, in fetched order. */
  function MapLoaded(items: seq<Post>): (r: seq<Post>)
    ensures |r| == |items|
    ensures forall i :: 0 <= i < |items| ==> r[i] == Loaded(items[i])
  {
    seq(|items|, i requires 0 <= i < |items| => Loaded(items[i]))
  }

  /** A page load replaces the posts wholesale: every record it installs is
      one of the fetched items, the ids shown are exactly the fetched ids,
      and ids are unique afterwards when they were unique in the response. */
  lemma LoadReplacesWholesale(items: seq<Post>, id: string)
    ensures forall q :: q in MapLoaded(items) ==> exists it :: it in items && q == Loaded(it)
    ensures HasId(MapLoaded(items), id) <==> HasId(items, id)
    ensures UniqueIds(MapLoaded(items)) <==> UniqueIds(items)
  {
  }

  /** After a page load whose response has unique ids, every fetched id is
      shown exactly once. */
  lemma UniqueLoadShowsEachIdOnce(items: seq<Post>, id: string)
    requires UniqueIds(items) && HasId(items, id)
    ensures CountId(MapLoaded(items), id) == 1
  {
    LoadReplacesWholesale(items, id);
    CountIdOneWhenUnique(MapLoaded(items), id);
  }
}
