/** The image record shared by the meme hooks and the image store, and the two list updates both apply to it. */
module Types {
  import opened Wrappers
  import Seqs

  /** `Meme` (and the store's structurally identical `ImageData`); optional keys are `Option`s. */
  datatype Meme = Meme(
    id: string,
    url: string,
    originalName: string,
    filename: Option<string>,
    size: int,
    mimeType: Option<string>,
    uploadDate: string,
    description: Option<string>,
    category: Option<string>,
    path: Option<string>)

  /** `Partial<Meme>`: `Some` for every key the patch carries. */
  datatype MemePatch = MemePatch(
    id: Option<string>,
    url: Option<string>,
    originalName: Option<string>,
    filename: Option<string>,
    size: Option<int>,
    mimeType: Option<string>,
    uploadDate: Option<string>,
    description: Option<string>,
    category: Option<string>,
    path: Option<string>)

  /** Replaces `prev` by `next` when the patch carries the key. */
  function Pick<T>(prev: T, next: Option<T>): T {
    if next.Some? then next.value else prev
  }

  /** Same, for a key that is itself optional in the record. */
  function PickOptional<T>(prev: Option<T>, next: Option<T>): Option<T> {
    if next.Some? then next else prev
  }

  /** `{ ...m, ...u }`: the keys `u` carries override those of `m`. */
  function Overlay(m: Meme, u: MemePatch): Meme {
    Meme(Pick(m.id, u.id), Pick(m.url, u.url), Pick(m.originalName, u.originalName),
         PickOptional(m.filename, u.filename), Pick(m.size, u.size),
         PickOptional(m.mimeType, u.mimeType), Pick(m.uploadDate, u.uploadDate),
         PickOptional(m.description, u.description), PickOptional(m.category, u.category),
         PickOptional(m.path, u.path))
  }

  /** A full record seen as a patch: its required keys are always present. */
  function AsPatch(m: Meme): MemePatch {
    MemePatch(Some(m.id), Some(m.url), Some(m.originalName), m.filename, Some(m.size),
              m.mimeType, Some(m.uploadDate), m.description, m.category, m.path)
  }

  /** Overlaying the same patch twice changes nothing more than overlaying it once. */
  lemma OverlayIdempotent(m: Meme, u: MemePatch)
    ensures Overlay(Overlay(m, u), u) == Overlay(m, u)
  {
  }

  /** Spreading a full record over `m` takes every required key from the record. */
  lemma OverlayFullRecord(m: Meme, n: Meme)
    ensures var r := Overlay(m, AsPatch(n));
      r.id == n.id && r.url == n.url && r.originalName == n.originalName && r.size == n.size
      && r.uploadDate == n.uploadDate
      && r.filename == (if n.filename.Some? then n.filename else m.filename)
      && r.mimeType == (if n.mimeType.Some? then n.mimeType else m.mimeType)
      && r.description == (if n.description.Some? then n.description else m.description)
      && r.category == (if n.category.Some? then n.category else m.category)
      && r.path == (if n.path.Some? then n.path else m.path)
  {
  }

  /** `list.map(x => x.id === id ? { ...x, ...u } : x)` */
  function UpdateById(s: seq<Meme>, id: string, u: MemePatch): (r: seq<Meme>)
    ensures |r| == |s|
    ensures forall i :: 0 <= i < |s| ==> r[i] == if s[i].id == id then Overlay(s[i], u) else s[i]
  {
    if s == [] then [] else [if s[0].id == id then Overlay(s[0], u) else s[0]] + UpdateById(s[1..], id, u)
  }

  /** The keep-predicate of `list.filter(x => x.id !== id)`. */
  function IdIsNot(id: string): Meme -> bool {
    (m: Meme) => m.id != id
  }

  /** `list.filter(x => x.id !== id)` */
  function RemoveById(s: seq<Meme>, id: string): seq<Meme> {
    Seqs.Filter(s, IdIsNot(id))
  }

  /** After removal no element carries `id`, every other element keeps all its copies, and the order is kept. */
  lemma RemoveByIdSpec(s: seq<Meme>, id: string)
    ensures forall x :: x in RemoveById(s, id) ==> x.id != id
    ensures forall x :: multiset(RemoveById(s, id))[x] == if x.id == id then 0 else multiset(s)[x]
    ensures Seqs.IsSubsequence(RemoveById(s, id), s)
  {
    forall x ensures multiset(RemoveById(s, id))[x] == if x.id == id then 0 else multiset(s)[x] {
      Seqs.FilterMultiplicity(s, IdIsNot(id), x);
    }
    Seqs.FilterIsSubsequence(s, IdIsNot(id));
  }

  /** Removing an id that no element carries is the identity. */
  lemma RemoveAbsentId(s: seq<Meme>, id: string)
    requires forall x :: x in s ==> x.id != id
    ensures RemoveById(s, id) == s
  {
    Seqs.FilterKeepsAll(s, IdIsNot(id));
  }

  /** Updating an element and then removing its id is the same as removing it straight away,
      provided the patch leaves the id alone or repeats it: the update touches nothing else. */
  lemma {:induction false} UpdateThenRemove(s: seq<Meme>, id: string, u: MemePatch)
    requires u.id.None? || u.id == Some(id)
    ensures RemoveById(UpdateById(s, id, u), id) == RemoveById(s, id)
  {
    if s != [] {
      UpdateThenRemove(s[1..], id, u);
      assert UpdateById(s, id, u)[1..] == UpdateById(s[1..], id, u);
    }
  }

  /** Updating twice with the same patch is updating once. A patch that gives an element another id
      makes the second update pass that element by. */
  lemma {:induction false} UpdateByIdIdempotent(s: seq<Meme>, id: string, u: MemePatch)
    ensures UpdateById(UpdateById(s, id, u), id, u) == UpdateById(s, id, u)
  {
    if s != [] {
      UpdateByIdIdempotent(s[1..], id, u);
      assert UpdateById(s, id, u)[1..] == UpdateById(s[1..], id, u);
    }
  }
}
