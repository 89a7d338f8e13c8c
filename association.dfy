/**
 * The photo-tag association as a value: for every photo, the tags it holds
 * (by name), and for every tag, the photos it records. Objects that are not
 * keys have empty sets, as freshly constructed photos and tags do. Each of
 * the four entry points changes just the two sets that its `Model` method
 * changes, exactly as the `After...` functions of `Model` say.
 *
 * The mirror invariant is `t ∈ p.tags ⇔ p ∈ t.photos`, where `t ∈ p.tags`
 * means that `p` holds the instance `t` itself. Two instances with one name
 * are the one hazard: the lemmas below show which calls keep the invariant
 * in every case and which keep it exactly when the instance passed in is
 * the one held under its name.
 */
module Association {
  import opened Model

  datatype Graph = Graph(tagsOf: map<Photo, map<string, Tag>>, photosOf: map<Tag, set<Photo>>)

  const Empty: Graph := Graph(map[], map[])

  function TagsOf(g: Graph, p: Photo): map<string, Tag> {
    if p in g.tagsOf then g.tagsOf[p] else map[]
  }

  function PhotosOf(g: Graph, t: Tag): set<Photo> {
    if t in g.photosOf then g.photosOf[t] else {}
  }

  /** No key maps to an empty set, so equal associations are equal values. */
  predicate Canonical(g: Graph) {
    && (forall p :: p in g.tagsOf ==> g.tagsOf[p] != map[])
    && (forall t :: t in g.photosOf ==> g.photosOf[t] != {})
  }

  function EndsOf(g: Graph, p: Photo, t: Tag): Ends {
    Ends(TagsOf(g, p), PhotosOf(g, t))
  }

  function PutTags(m: map<Photo, map<string, Tag>>, p: Photo, tags: map<string, Tag>): map<Photo, map<string, Tag>> {
    if tags == map[] then m - {p} else m[p := tags]
  }

  function PutPhotos(m: map<Tag, set<Photo>>, t: Tag, photos: set<Photo>): map<Tag, set<Photo>> {
    if photos == {} then m - {t} else m[t := photos]
  }

  /** Every photo other than `p` and every tag other than `t` has the same sets in `g` and `r`. */
  predicate OnlyEndsDiffer(g: Graph, r: Graph, p: Photo, t: Tag) {
    g.tagsOf - {p} == r.tagsOf - {p} && g.photosOf - {t} == r.photosOf - {t}
  }

  /** Replace `p`'s tags and `t`'s photos by `e`; nothing else changes. */
  function Apply(g: Graph, p: Photo, t: Tag, e: Ends): (r: Graph)
    ensures TagsOf(r, p) == e.tags && PhotosOf(r, t) == e.photos
    ensures OnlyEndsDiffer(g, r, p, t)
    ensures Canonical(g) ==> Canonical(r)
  {
    Graph(PutTags(g.tagsOf, p, e.tags), PutPhotos(g.photosOf, t, e.photos))
  }

  /** What `Apply` leaves for any one photo and any one tag. */
  lemma ApplyFrame(g: Graph, p: Photo, t: Tag, e: Ends, q: Photo, u: Tag)
    ensures TagsOf(Apply(g, p, t, e), q) == if q == p then e.tags else TagsOf(g, q)
    ensures PhotosOf(Apply(g, p, t, e), u) == if u == t then e.photos else PhotosOf(g, u)
  {
  }

  /** `p.addTag(t)`: the effect `Model.Photo.AddTag` ensures, and nothing else. */
  function AddTag(g: Graph, p: Photo, t: Tag): (r: Graph)
    ensures EndsOf(r, p, t) == AfterAddTag(EndsOf(g, p, t), p, t)
    ensures OnlyEndsDiffer(g, r, p, t)
  {
    Apply(g, p, t, AfterAddTag(EndsOf(g, p, t), p, t))
  }

  /** `p.removeTag(t)`: the effect `Model.Photo.RemoveTag` ensures, and nothing else. */
  function RemoveTag(g: Graph, p: Photo, t: Tag): (r: Graph)
    ensures EndsOf(r, p, t) == AfterRemoveTag(EndsOf(g, p, t), p, t)
    ensures OnlyEndsDiffer(g, r, p, t)
  {
    Apply(g, p, t, AfterRemoveTag(EndsOf(g, p, t), p, t))
  }

  /** `t.addTagToPhoto(p)`: the effect `Model.Tag.AddTagToPhoto` ensures, and nothing else. */
  function AddTagToPhoto(g: Graph, t: Tag, p: Photo): (r: Graph)
    ensures EndsOf(r, p, t) == AfterAddTagToPhoto(EndsOf(g, p, t), t, p)
    ensures OnlyEndsDiffer(g, r, p, t)
  {
    Apply(g, p, t, AfterAddTagToPhoto(EndsOf(g, p, t), t, p))
  }

  /** `t.removeTagFromPhoto(p)`: the effect `Model.Tag.RemoveTagFromPhoto` ensures, and nothing else. */
  function RemoveTagFromPhoto(g: Graph, t: Tag, p: Photo): (r: Graph)
    ensures EndsOf(r, p, t) == AfterRemoveTagFromPhoto(EndsOf(g, p, t), t, p)
    ensures OnlyEndsDiffer(g, r, p, t)
  {
    Apply(g, p, t, AfterRemoveTagFromPhoto(EndsOf(g, p, t), t, p))
  }

  /** `t ∈ p.tags ⇔ p ∈ t.photos` for this one pair. */
  ghost predicate MirroredAt(g: Graph, p: Photo, t: Tag) {
    Stored(TagsOf(g, p), t) <==> p in PhotosOf(g, t)
  }

  /**
   * `t ∈ p.tags ⇔ p ∈ t.photos`, for every photo and every tag: every held
   * instance records its photo, and every recorded photo holds the tag.
   * `MirrorIsPairwise` restates it pair by pair.
   */
  ghost predicate Mirror(g: Graph) {
    && (forall p, n :: p in g.tagsOf && n in g.tagsOf[p] && g.tagsOf[p][n].name == n ==> p in PhotosOf(g, g.tagsOf[p][n]))
    && (forall t, p :: t in g.photosOf && p in g.photosOf[t] ==> Stored(TagsOf(g, p), t))
  }

  lemma MirrorIsPairwise(g: Graph)
    ensures Mirror(g) <==> forall p: Photo, t: Tag :: MirroredAt(g, p, t)
  {
    if Mirror(g) {
      forall p: Photo, t: Tag ensures MirroredAt(g, p, t) {
        if Stored(TagsOf(g, p), t) {
          assert p in g.tagsOf && t.name in g.tagsOf[p];
        }
      }
    } else if forall p: Photo, t: Tag :: MirroredAt(g, p, t) {
      forall p, n | p in g.tagsOf && n in g.tagsOf[p] && g.tagsOf[p][n].name == n
        ensures p in PhotosOf(g, g.tagsOf[p][n])
      {
        assert MirroredAt(g, p, g.tagsOf[p][n]);
      }
      forall t, p | t in g.photosOf && p in g.photosOf[t] ensures Stored(TagsOf(g, p), t) {
        assert MirroredAt(g, p, t);
      }
    }
  }

  /** Every photo holds each of its tags under that tag's own name, as `Photo.addTag` stores them. */
  predicate Keyed(g: Graph) {
    forall p, n :: p in g.tagsOf && n in g.tagsOf[p] ==> g.tagsOf[p][n].name == n
  }

  lemma StepKeepsKeyed(g: Graph, c: Call)
    requires Keyed(g)
    ensures Keyed(Step(g, c))
  {
    var r := Step(g, c);
    forall q, n | q in r.tagsOf && n in r.tagsOf[q] ensures r.tagsOf[q][n].name == n {
      if q != c.p || n != c.t.name {
        assert n in TagsOf(g, q);
      }
    }
  }

  /** `p` holds no other instance under `t`'s name. */
  predicate NoClash(g: Graph, p: Photo, t: Tag) {
    t.name in TagsOf(g, p) ==> TagsOf(g, p)[t.name] == t
  }

  // ---------------------------------------------------------------------------
  // The mirror invariant

  /** `p.addTag(t)` keeps the mirror, whatever instance `t` is. */
  lemma AddTagKeepsMirror(g: Graph, p: Photo, t: Tag)
    requires Mirror(g)
    ensures Mirror(AddTag(g, p, t))
  {
    var e := AfterAddTag(EndsOf(g, p, t), p, t);
    var r := AddTag(g, p, t);
    MirrorIsPairwise(g);
    forall q: Photo, u: Tag ensures MirroredAt(r, q, u) {
      ApplyFrame(g, p, t, e, q, u);
      assert MirroredAt(g, q, u);
    }
    MirrorIsPairwise(r);
  }

  /** `t.removeTagFromPhoto(p)` keeps the mirror, whatever instance `t` is. */
  lemma RemoveTagFromPhotoKeepsMirror(g: Graph, t: Tag, p: Photo)
    requires Mirror(g)
    ensures Mirror(RemoveTagFromPhoto(g, t, p))
  {
    var e := AfterRemoveTagFromPhoto(EndsOf(g, p, t), t, p);
    var r := RemoveTagFromPhoto(g, t, p);
    MirrorIsPairwise(g);
    assert MirroredAt(g, p, t);
    forall q: Photo, u: Tag ensures MirroredAt(r, q, u) {
      ApplyFrame(g, p, t, e, q, u);
      assert MirroredAt(g, q, u);
    }
    MirrorIsPairwise(r);
  }

  /**
   * `p.removeTag(t)` keeps the mirror exactly when `p` does not hold another
   * instance of `t`'s name: removal by name would drop that instance from
   * `p` while it still records `p`.
   */
  lemma RemoveTagKeepsMirrorIffNoClash(g: Graph, p: Photo, t: Tag)
    requires Mirror(g) && Keyed(g)
    ensures Mirror(RemoveTag(g, p, t)) <==> NoClash(g, p, t)
  {
    var e := AfterRemoveTag(EndsOf(g, p, t), p, t);
    var r := RemoveTag(g, p, t);
    MirrorIsPairwise(g);
    if NoClash(g, p, t) {
      forall q: Photo, u: Tag ensures MirroredAt(r, q, u) {
        ApplyFrame(g, p, t, e, q, u);
        assert MirroredAt(g, q, u);
      }
      MirrorIsPairwise(r);
    } else {
      var held := TagsOf(g, p)[t.name];
      assert MirroredAt(g, p, held);
      ApplyFrame(g, p, t, e, p, held);
      assert !MirroredAt(r, p, held);
      MirrorIsPairwise(r);
    }
  }

  /**
   * `t.addTagToPhoto(p)` keeps the mirror exactly when `p` does not hold
   * another instance of `t`'s name: otherwise `t` records `p` while `p`
   * keeps the other instance.
   */
  lemma AddTagToPhotoKeepsMirrorIffNoClash(g: Graph, t: Tag, p: Photo)
    requires Mirror(g) && Keyed(g)
    ensures Mirror(AddTagToPhoto(g, t, p)) <==> NoClash(g, p, t)
  {
    var e := AfterAddTagToPhoto(EndsOf(g, p, t), t, p);
    var r := AddTagToPhoto(g, t, p);
    MirrorIsPairwise(g);
    assert MirroredAt(g, p, t);
    if NoClash(g, p, t) {
      forall q: Photo, u: Tag ensures MirroredAt(r, q, u) {
        ApplyFrame(g, p, t, e, q, u);
        assert MirroredAt(g, q, u);
      }
      MirrorIsPairwise(r);
    } else {
      assert !MirroredAt(r, p, t);
      MirrorIsPairwise(r);
    }
  }

  /** Two instances sharing a name: after `p.addTag(t1)`, `p.removeTag(t2)` leaves `t1` recording `p` alone. */
  lemma SimilarTagRemoveBreaksMirror(g: Graph, p: Photo, t1: Tag, t2: Tag)
    requires Mirror(g) && Keyed(g) && t1 != t2 && t1.name == t2.name && t1.name !in TagsOf(g, p)
    ensures var r := RemoveTag(AddTag(g, p, t1), p, t2);
      p in PhotosOf(r, t1) && t1.name !in TagsOf(r, p) && !Mirror(r)
  {
    var g1 := AddTag(g, p, t1);
    AddTagKeepsMirror(g, p, t1);
    StepKeepsKeyed(g, PhotoAddTag(p, t1));
    assert TagsOf(g1, p)[t1.name] == t1;
    RemoveTagKeepsMirrorIffNoClash(g1, p, t2);
  }

  /**
   * The canonical mutation path: while the mirror holds and `t` is the
   * instance held under its name (or the name is free), calling from the
   * photo side and from the tag side has the same effect.
   */
  lemma EntryPointsAgree(g: Graph, p: Photo, t: Tag)
    requires Mirror(g) && NoClash(g, p, t)
    ensures AddTagToPhoto(g, t, p) == AddTag(g, p, t)
    ensures RemoveTagFromPhoto(g, t, p) == RemoveTag(g, p, t)
  {
    MirrorIsPairwise(g);
    assert MirroredAt(g, p, t);
  }

  // ---------------------------------------------------------------------------
  // Idempotence, no-ops and round trips

  /** Canonical associations that agree on every photo and every tag are the same value. */
  lemma {:induction false} CanonicalExtensional(g1: Graph, g2: Graph)
    requires Canonical(g1) && Canonical(g2)
    requires forall p :: TagsOf(g1, p) == TagsOf(g2, p)
    requires forall t :: PhotosOf(g1, t) == PhotosOf(g2, t)
    ensures g1 == g2
  {
    forall p ensures p in g1.tagsOf <==> p in g2.tagsOf {
      assert TagsOf(g1, p) == TagsOf(g2, p);
    }
    forall t ensures t in g1.photosOf <==> t in g2.photosOf {
      assert PhotosOf(g1, t) == PhotosOf(g2, t);
    }
    forall p | p in g1.tagsOf ensures g1.tagsOf[p] == g2.tagsOf[p] {
      assert TagsOf(g1, p) == TagsOf(g2, p);
    }
    forall t | t in g1.photosOf ensures g1.photosOf[t] == g2.photosOf[t] {
      assert PhotosOf(g1, t) == PhotosOf(g2, t);
    }
  }

  /** Writing back the sets already there changes nothing. */
  lemma ApplyOwnEnds(g: Graph, p: Photo, t: Tag)
    requires Canonical(g)
    ensures Apply(g, p, t, EndsOf(g, p, t)) == g
  {
    CanonicalExtensional(Apply(g, p, t, EndsOf(g, p, t)), g);
  }

  /**
   * `addTag` is idempotent, also across instances that share a name: the
   * second call, with `t1` itself or with another `t2` of its name, is a
   * no-op, and in particular `t2` never records `p`.
   */
  lemma AddTagIdempotent(g: Graph, p: Photo, t1: Tag, t2: Tag)
    requires Canonical(g) && t1.name == t2.name
    ensures AddTag(AddTag(g, p, t1), p, t2) == AddTag(g, p, t1)
  {
    var g1 := AddTag(g, p, t1);
    assert t2.name in TagsOf(g1, p);
    ApplyOwnEnds(g1, p, t2);
  }

  /** `addTagToPhoto` is idempotent. */
  lemma AddTagToPhotoIdempotent(g: Graph, t: Tag, p: Photo)
    requires Canonical(g)
    ensures AddTagToPhoto(AddTagToPhoto(g, t, p), t, p) == AddTagToPhoto(g, t, p)
  {
    var g1 := AddTagToPhoto(g, t, p);
    assert p in PhotosOf(g1, t);
    ApplyOwnEnds(g1, p, t);
  }

  /** `p.addTag(t)` changes nothing exactly when `p` already holds a tag of `t`'s name. */
  lemma AddTagNoopIff(g: Graph, p: Photo, t: Tag)
    requires Canonical(g)
    ensures AddTag(g, p, t) == g <==> t.name in TagsOf(g, p)
  {
    if t.name in TagsOf(g, p) {
      ApplyOwnEnds(g, p, t);
    } else {
      assert t.name in TagsOf(AddTag(g, p, t), p);
    }
  }

  /** `p.removeTag(t)` changes nothing exactly when `p` holds no tag of `t`'s name. */
  lemma RemoveTagNoopIff(g: Graph, p: Photo, t: Tag)
    requires Canonical(g)
    ensures RemoveTag(g, p, t) == g <==> t.name !in TagsOf(g, p)
  {
    if t.name !in TagsOf(g, p) {
      ApplyOwnEnds(g, p, t);
    } else {
      assert t.name !in TagsOf(RemoveTag(g, p, t), p);
    }
  }

  /** `t.addTagToPhoto(p)` changes nothing exactly when `t` already records `p`. */
  lemma AddTagToPhotoNoopIff(g: Graph, t: Tag, p: Photo)
    requires Canonical(g)
    ensures AddTagToPhoto(g, t, p) == g <==> p in PhotosOf(g, t)
  {
    if p in PhotosOf(g, t) {
      ApplyOwnEnds(g, p, t);
    } else {
      assert p in PhotosOf(AddTagToPhoto(g, t, p), t);
    }
  }

  /** `t.removeTagFromPhoto(p)` changes nothing exactly when `t` does not record `p`. */
  lemma RemoveTagFromPhotoNoopIff(g: Graph, t: Tag, p: Photo)
    requires Canonical(g)
    ensures RemoveTagFromPhoto(g, t, p) == g <==> p !in PhotosOf(g, t)
  {
    if p !in PhotosOf(g, t) {
      ApplyOwnEnds(g, p, t);
    } else {
      assert p !in PhotosOf(RemoveTagFromPhoto(g, t, p), t);
    }
  }

  /** Removing a tag that was just added restores the association, from either side. */
  lemma AddThenRemoveRestores(g: Graph, p: Photo, t: Tag)
    requires Canonical(g) && Mirror(g) && t.name !in TagsOf(g, p)
    ensures RemoveTag(AddTag(g, p, t), p, t) == g
    ensures RemoveTagFromPhoto(AddTagToPhoto(g, t, p), t, p) == g
  {
    MirrorIsPairwise(g);
    assert MirroredAt(g, p, t);
    assert TagsOf(g, p)[t.name := t] - {t.name} == TagsOf(g, p);
    assert (PhotosOf(g, t) + {p}) - {p} == PhotosOf(g, t);
    CanonicalExtensional(RemoveTag(AddTag(g, p, t), p, t), g);
    CanonicalExtensional(RemoveTagFromPhoto(AddTagToPhoto(g, t, p), t, p), g);
  }

  // ---------------------------------------------------------------------------
  // Any sequence of calls, with one instance per name

  datatype Call =
    | PhotoAddTag(p: Photo, t: Tag)
    | PhotoRemoveTag(p: Photo, t: Tag)
    | TagAddTagToPhoto(t: Tag, p: Photo)
    | TagRemoveTagFromPhoto(t: Tag, p: Photo)

  function Step(g: Graph, c: Call): Graph {
    match c
    case PhotoAddTag(p, t) => AddTag(g, p, t)
    case PhotoRemoveTag(p, t) => RemoveTag(g, p, t)
    case TagAddTagToPhoto(t, p) => AddTagToPhoto(g, t, p)
    case TagRemoveTagFromPhoto(t, p) => RemoveTagFromPhoto(g, t, p)
  }

  function Run(g: Graph, calls: seq<Call>): Graph
    decreases |calls|
  {
    if calls == [] then g else Run(Step(g, calls[0]), calls[1..])
  }

  /**
   * The caller uses one instance per name, drawn from `ts`: every held tag
   * is in `ts` and held under its own name, and no two tags of `ts` share a name.
   */
  ghost predicate Interned(g: Graph, ts: set<Tag>) {
    && Keyed(g)
    && (forall p, n :: p in g.tagsOf && n in g.tagsOf[p] ==> g.tagsOf[p][n] in ts)
    && (forall t1, t2 :: t1 in ts && t2 in ts && t1.name == t2.name ==> t1 == t2)
  }

  lemma StepKeepsInterned(g: Graph, ts: set<Tag>, c: Call)
    requires Interned(g, ts) && c.t in ts
    ensures Interned(Step(g, c), ts)
    ensures NoClash(g, c.p, c.t)
  {
    var r := Step(g, c);
    StepKeepsKeyed(g, c);
    forall q, n | q in r.tagsOf && n in r.tagsOf[q] ensures r.tagsOf[q][n] in ts {
      if q != c.p || n != c.t.name {
        assert n in TagsOf(g, q);
      }
    }
  }

  /** Every sequence of calls that sticks to one instance per name keeps the mirror after each call. */
  lemma {:induction false} RunKeepsMirror(g: Graph, ts: set<Tag>, calls: seq<Call>)
    requires Mirror(g) && Interned(g, ts)
    requires forall i :: 0 <= i < |calls| ==> calls[i].t in ts
    ensures Mirror(Run(g, calls)) && Interned(Run(g, calls), ts)
    decreases |calls|
  {
    if calls != [] {
      var c := calls[0];
      StepKeepsInterned(g, ts, c);
      match c {
        case PhotoAddTag(p, t) => AddTagKeepsMirror(g, p, t);
        case PhotoRemoveTag(p, t) => RemoveTagKeepsMirrorIffNoClash(g, p, t);
        case TagAddTagToPhoto(t, p) => AddTagToPhotoKeepsMirrorIffNoClash(g, t, p);
        case TagRemoveTagFromPhoto(t, p) => RemoveTagFromPhotoKeepsMirror(g, t, p);
      }
      RunKeepsMirror(Step(g, c), ts, calls[1..]);
    }
  }

  /**
   * With one instance per name, the name lookup of `getTags().contains(t)`
   * agrees with holding the instance `t`, so the mirror reads as
   * `p.getTags().contains(t) ⇔ t.getPhotos().contains(p)`.
   */
  lemma InternedMirrorObservable(g: Graph, ts: set<Tag>, p: Photo, t: Tag)
    requires Mirror(g) && Interned(g, ts) && t in ts
    ensures t.name in TagsOf(g, p) <==> p in PhotosOf(g, t)
  {
    MirrorIsPairwise(g);
    assert MirroredAt(g, p, t);
  }

  // ---------------------------------------------------------------------------
  // The heap of `Model` objects seen as an association

  /** The association that the photos `ps` and the tags `ts` hold right now. */
  ghost function Snapshot(ps: set<Photo>, ts: set<Tag>): (g: Graph)
    reads ps, ts
    ensures Canonical(g)
  {
    Graph(map p | p in ps && p.tags != map[] :: p.tags, map t | t in ts && t.photos != {} :: t.photos)
  }

  /**
   * When a call has changed only `p.tags` and `t.photos`, so that every
   * other object still has the sets that `before` records for it, the
   * objects' association is `before` with those two sets replaced.
   */
  lemma SnapshotAfterCall(ps: set<Photo>, ts: set<Tag>, p: Photo, t: Tag, before: Graph)
    requires p in ps && t in ts && Canonical(before)
    requires forall q :: q in before.tagsOf ==> q in ps
    requires forall u :: u in before.photosOf ==> u in ts
    requires forall q :: q in ps && q != p ==> q.tags == TagsOf(before, q)
    requires forall u :: u in ts && u != t ==> u.photos == PhotosOf(before, u)
    ensures Snapshot(ps, ts) == Apply(before, p, t, Ends(p.tags, t.photos))
  {
    CanonicalExtensional(Snapshot(ps, ts), Apply(before, p, t, Ends(p.tags, t.photos)));
  }
}
