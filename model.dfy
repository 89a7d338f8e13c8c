/**
 * The `model` package: a `Photo` carries a set of `Tag`s and every `Tag`
 * carries the set of `Photo`s labelled with it. Each side's add and remove
 * method updates its own set and then calls the other side's method, which
 * finds the association already recorded and stops.
 *
 * A photo's tag set is a `HashSet<Tag>` whose elements compare by name, so
 * it holds at most one instance per name and keeps the first one added: it
 * is modelled as a map from name to that instance. A tag's photo set holds
 * photos by identity (`Photo` has no `equals`), so it is a `set<Photo>`.
 */
module Model {
  import opened JavaLang

  // Directory and file-type constants of Photo.java.
  const ImageDir: string := "photos"
  const ThumbnailsDir: string := "thumbnails"
  const ImageType: string := ".jpg"

  /**
   * The system properties `user.dir` and `file.separator`, read once when the
   * class loads: callers pass one `Env` to every photo of a run.
   */
  datatype Env = Env(userDir: string, fileSeparator: string)

  /** `<user.dir><sep><dir><sep><name>.jpg`. */
  function StorePath(env: Env, dir: string, name: string): string {
    env.userDir + env.fileSeparator + dir + env.fileSeparator + name + ImageType
  }

  function ImagePath(env: Env, name: string): string {
    StorePath(env, ImageDir, name)
  }

  function ThumbnailPath(env: Env, name: string): string {
    StorePath(env, ThumbnailsDir, name)
  }

  /** Within one store, different names never share a file. */
  lemma StorePathInjective(env: Env, dir: string, n1: string, n2: string)
    requires StorePath(env, dir, n1) == StorePath(env, dir, n2)
    ensures n1 == n2
  {
    var prefix := env.userDir + env.fileSeparator + dir + env.fileSeparator;
    var s1, s2 := StorePath(env, dir, n1), StorePath(env, dir, n2);
    assert s1 == prefix + n1 + ImageType && s2 == prefix + n2 + ImageType;
    assert |n1| == |n2|;
    assert s1[|prefix|..|prefix| + |n1|] == n1;
    assert s2[|prefix|..|prefix| + |n2|] == n2;
  }

  /** A thumbnail never overwrites a full-resolution image, whatever the two names. */
  lemma ImageAndThumbnailPathsDiffer(env: Env, n1: string, n2: string)
    ensures ImagePath(env, n1) != ThumbnailPath(env, n2)
  {
    var k := |env.userDir + env.fileSeparator|;
    assert ImagePath(env, n1)[k] == 'p';
    assert ThumbnailPath(env, n2)[k] == 't';
  }

  /**
   * The two sets one add or remove call touches: the photo's tags (by name)
   * and the tag's photos.
   */
  datatype Ends = Ends(tags: map<string, Tag>, photos: set<Photo>)

  /** The instance `t` itself is the one held under its name. */
  predicate Stored(tags: map<string, Tag>, t: Tag) {
    t.name in tags && tags[t.name] == t
  }

  /**
   * What `p.addTag(t)` leaves behind. A tag of the same name already held
   * makes the call do nothing; otherwise `t` is held and `t.addTagToPhoto(p)`
   * records `p` (or finds it recorded already).
   */
  function AfterAddTag(e: Ends, p: Photo, t: Tag): Ends {
    if t.name in e.tags then e
    else Ends(e.tags[t.name := t], e.photos + {p})
  }

  /**
   * What `t.addTagToPhoto(p)` leaves behind. If `p` is new to `t`, it is
   * recorded and `p.addTag(t)` holds `t`, unless `p` already holds a tag of
   * that name, in which case `p`'s tags stay as they were.
   */
  function AfterAddTagToPhoto(e: Ends, t: Tag, p: Photo): Ends {
    if p in e.photos then e
    else Ends(if t.name in e.tags then e.tags else e.tags[t.name := t], e.photos + {p})
  }

  /**
   * What `p.removeTag(t)` leaves behind. The tag held under `t`'s name,
   * whichever instance it is, is dropped, and `t.removeTagFromPhoto(p)`
   * drops `p` from `t`.
   */
  function AfterRemoveTag(e: Ends, p: Photo, t: Tag): Ends {
    if t.name !in e.tags then e
    else Ends(e.tags - {t.name}, e.photos - {p})
  }

  /**
   * What `t.removeTagFromPhoto(p)` leaves behind. If `p` carries `t`, it is
   * dropped and `p.removeTag(t)` drops whatever `p` holds under `t`'s name.
   */
  function AfterRemoveTagFromPhoto(e: Ends, t: Tag, p: Photo): Ends {
    if p !in e.photos then e
    else Ends(e.tags - {t.name}, e.photos - {p})
  }

  /** Sides of the association between `p` and `t` that an add has still to record (at most 2). */
  ghost function AddPending(p: Photo, t: Tag): nat
    reads p, t
  {
    (if t.name in p.tags then 0 else 1) + (if p in t.photos then 0 else 1)
  }

  /** Sides of the association between `p` and `t` that a remove has still to erase (at most 2). */
  ghost function RemovePending(p: Photo, t: Tag): nat
    reads p, t
  {
    (if t.name in p.tags then 1 else 0) + (if p in t.photos then 1 else 0)
  }

  class Photo {
    const name: string
    const dateAdded: int
    const imageFilePath: string
    const thumbnailFilePath: string
    var description: Option<string>
    var tags: map<string, Tag>

    /** `now` is the wall-clock reading of `new Date()`; `env` holds the system properties. */
    constructor (name: string, env: Env, now: int)
      ensures this.name == name && dateAdded == now
      ensures description == None && tags == map[]
      ensures imageFilePath == ImagePath(env, name)
      ensures thumbnailFilePath == ThumbnailPath(env, name)
    {
      this.name := name;
      dateAdded := now;
      imageFilePath := ImagePath(env, name);
      thumbnailFilePath := ThumbnailPath(env, name);
      description := None;
      tags := map[];
    }

    /** The name fixed at construction. */
    function GetName(): (r: string)
      ensures r == name
    {
      name
    }

    /** The current description: `None` until `SetDescription` gives one. */
    function GetDescription(): (r: Option<string>)
      reads this
      ensures r == description
    {
      description
    }

    /** The clock reading taken at construction. */
    function GetDateAdded(): (r: int)
      ensures r == dateAdded
    {
      dateAdded
    }

    method SetDescription(description: Option<string>)
      modifies this`description
      ensures this.description == description
    {
      this.description := description;
    }

    method AddTag(t: Tag)
      modifies this`tags, t`photos
      ensures Ends(tags, t.photos) == AfterAddTag(old(Ends(tags, t.photos)), this, t)
      decreases AddPending(this, t)
    {
      if t.name !in tags {
        tags := tags[t.name := t];
        t.AddTagToPhoto(this);
      }
    }

    method RemoveTag(t: Tag)
      modifies this`tags, t`photos
      ensures Ends(tags, t.photos) == AfterRemoveTag(old(Ends(tags, t.photos)), this, t)
      decreases RemovePending(this, t)
    {
      if t.name in tags {
        tags := tags - {t.name};
        t.RemoveTagFromPhoto(this);
      }
    }

    /** `Collections.unmodifiableSet(tags)`: a live view with no mutators. */
    method GetTags() returns (view: TagsView)
      ensures fresh(view) && view.photo == this
    {
      view := new TagsView(this);
    }
  }

  class Tag {
    const name: string
    var photos: set<Photo>

    constructor (name: string)
      ensures this.name == name && photos == {}
    {
      this.name := name;
      photos := {};
    }

    /** The name fixed at construction. */
    function GetName(): (r: string)
      ensures r == name
    {
      name
    }

    /** `Collections.unmodifiableSet(photos)`: a live view with no mutators. */
    method GetPhotos() returns (view: PhotosView)
      ensures fresh(view) && view.tag == this
    {
      view := new PhotosView(this);
    }

    method AddTagToPhoto(p: Photo)
      modifies this`photos, p`tags
      ensures Ends(p.tags, photos) == AfterAddTagToPhoto(old(Ends(p.tags, photos)), this, p)
      decreases AddPending(p, this)
    {
      if p !in photos {
        photos := photos + {p};
        p.AddTag(this);
      }
    }

    method RemoveTagFromPhoto(p: Photo)
      modifies this`photos, p`tags
      ensures Ends(p.tags, photos) == AfterRemoveTagFromPhoto(old(Ends(p.tags, photos)), this, p)
      decreases RemovePending(p, this)
    {
      if p in photos {
        photos := photos - {p};
        p.RemoveTag(this);
      }
    }

    /** `equals`: the same instance, or another `Tag` with an equal name. */
    function Equals(o: object?): (r: bool)
      ensures r <==> o is Tag && (o as Tag).name == name
    {
      if this == o then true
      else if o == null || !(o is Tag) then false
      else (o as Tag).name == name
    }

    /** `hashCode`: `Objects.hash(name)`. */
    function HashCode(): (h: int)
      ensures IsInt(h)
    {
      ObjectsHash(StringHashCode(name))
    }
  }

  /** Tags that are equal have equal hash codes, so a `HashSet<Tag>` never holds two tags of one name. */
  lemma EqualTagsHashAlike(a: Tag, b: Tag)
    requires a.Equals(b)
    ensures a.HashCode() == b.HashCode()
    ensures b.Equals(a)
  {
  }

  /** A read-only view of a photo's tags that follows the photo's later changes. */
  class TagsView {
    const photo: Photo

    constructor (photo: Photo)
      ensures this.photo == photo
    {
      this.photo := photo;
    }

    function Size(): nat
      reads photo
    {
      |photo.tags|
    }

    /** `contains` looks up by `Tag.equals`, that is, by name. */
    predicate Contains(t: Tag)
      reads photo
    {
      t.name in photo.tags
    }

    function Elements(): set<Tag>
      reads photo
    {
      photo.tags.Values
    }
  }

  /** A read-only view of a tag's photos that follows the tag's later changes. */
  class PhotosView {
    const tag: Tag

    constructor (tag: Tag)
      ensures this.tag == tag
    {
      this.tag := tag;
    }

    function Size(): nat
      reads tag
    {
      |tag.photos|
    }

    predicate Contains(p: Photo)
      reads tag
    {
      p in tag.photos
    }

    function Elements(): set<Photo>
      reads tag
    {
      tag.photos
    }
  }
}
