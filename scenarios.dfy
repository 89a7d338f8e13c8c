/**
 * The unit tests of the photo and tag classes, and the two name-collision
 * cases, written against the `Model` classes: each method's outputs are what the
 * test observes, and its postcondition is what the test asserts.
 */
module Scenarios {
  import opened JavaLang
  import opened Model
  import Association

  /** A new photo: its name, no description, no tags, the clock reading, and both paths. */
  method TestNewPhoto(env: Env, now: int, name: string)
    returns (gotName: string, description: Option<string>, tagCount: nat, added: int,
             imagePath: string, thumbnailPath: string)
    ensures gotName == name && description == None && tagCount == 0 && added == now
    ensures imagePath == env.userDir + env.fileSeparator + "photos" + env.fileSeparator + name + ".jpg"
    ensures thumbnailPath == env.userDir + env.fileSeparator + "thumbnails" + env.fileSeparator + name + ".jpg"
  {
    var photo := new Photo(name, env, now);
    gotName := photo.GetName();
    description := photo.GetDescription();
    var tags := photo.GetTags();
    tagCount := tags.Size();
    added := photo.GetDateAdded();
    imagePath, thumbnailPath := photo.imageFilePath, photo.thumbnailFilePath;
  }

  /** Setting the description replaces the initial `null` and leaves the tags alone. */
  method TestSetAndGetDescription(env: Env, now: int, text: string)
    returns (before: Option<string>, after: Option<string>, tagCount: nat)
    ensures before == None && after == Some(text) && tagCount == 0
  {
    var doggo := new Photo("doggo", env, now);
    before := doggo.GetDescription();
    doggo.SetDescription(Some(text));
    after := doggo.GetDescription();
    var tags := doggo.GetTags();
    tagCount := tags.Size();
  }

  /** A tag reports the name it was built with. */
  method TestTagGetName() returns (name: string)
    ensures name == "Dog"
  {
    var tag := new Tag("Dog");
    name := tag.GetName();
  }

  /** `addTag` once: one tag, and the tag records the photo. */
  method TestAddOneTag(env: Env, now: int) returns (size: nat, hasTag: bool, tagHasPhoto: bool)
    ensures size == 1 && hasTag && tagHasPhoto
  {
    var doggo := new Photo("doggo", env, now);
    var tag := new Tag("Dog");
    doggo.AddTag(tag);
    var tags := doggo.GetTags();
    size := tags.Size();
    hasTag := tags.Contains(tag);
    var photos := tag.GetPhotos();
    tagHasPhoto := photos.Contains(doggo);
  }

  /** `addTag` twice with one instance: still one tag, and the tag records the photo once. */
  method TestAddSameTagTwice(env: Env, now: int) returns (size: nat, hasTag: bool, photoCount: nat)
    ensures size == 1 && hasTag && photoCount == 1
  {
    var doggo := new Photo("doggo", env, now);
    var tag := new Tag("Dog");
    doggo.AddTag(tag);
    doggo.AddTag(tag);
    var tags := doggo.GetTags();
    size := tags.Size();
    hasTag := tags.Contains(tag);
    var photos := tag.GetPhotos();
    photoCount := photos.Size();
  }

  /**
   * `addTag` with a second instance of the same name: one tag, the first
   * instance is the one held, and the second instance never records the photo.
   */
  method TestAddSimilarTagTwice(env: Env, now: int)
    returns (size: nat, holdsFirst: bool, firstPhotos: nat, secondPhotos: nat)
    ensures size == 1 && holdsFirst && firstPhotos == 1 && secondPhotos == 0
  {
    var doggo := new Photo("doggo", env, now);
    var tag := new Tag("Dog");
    doggo.AddTag(tag);
    var tag1 := new Tag("Dog");
    doggo.AddTag(tag1);
    var tags := doggo.GetTags();
    size := tags.Size();
    holdsFirst := tag in tags.Elements();
    var photos := tag.GetPhotos();
    firstPhotos := photos.Size();
    var photos1 := tag1.GetPhotos();
    secondPhotos := photos1.Size();
  }

  /** `removeTag` after `addTag`: a view of the tags taken before the removal is empty after it. */
  method TestRemoveTag(env: Env, now: int)
    returns (sizeBefore: nat, hasTagBefore: bool, sizeAfter: nat, tagPhotos: nat)
    ensures sizeBefore == 1 && hasTagBefore && sizeAfter == 0 && tagPhotos == 0
  {
    var doggo := new Photo("doggo", env, now);
    var tag := new Tag("Dog");
    doggo.AddTag(tag);
    var tags := doggo.GetTags();
    sizeBefore := tags.Size();
    hasTagBefore := tags.Contains(tag);
    doggo.RemoveTag(tag);
    sizeAfter := tags.Size();
    var photos := tag.GetPhotos();
    tagPhotos := photos.Size();
  }

  /** `removeTag` of a tag never added changes nothing. */
  method TestRemoveNonexistentTag(env: Env, now: int) returns (sizeBefore: nat, sizeAfter: nat)
    ensures sizeBefore == 0 && sizeAfter == 0
  {
    var doggo := new Photo("doggo", env, now);
    var tags := doggo.GetTags();
    sizeBefore := tags.Size();
    var animal := new Tag("Animal");
    doggo.RemoveTag(animal);
    sizeAfter := tags.Size();
  }

  /**
   * `removeTag` with a second instance of the held tag's name: the photo
   * drops the held instance by name, but that instance still records the
   * photo, because only the second instance is asked to forget it.
   */
  method RemoveSimilarTag(env: Env, now: int) returns (tagCount: nat, firstStillHasPhoto: bool)
    ensures tagCount == 0 && firstStillHasPhoto
  {
    var doggo := new Photo("doggo", env, now);
    var tag := new Tag("Dog");
    doggo.AddTag(tag);
    var tag1 := new Tag("Dog");
    doggo.RemoveTag(tag1);
    var tags := doggo.GetTags();
    tagCount := tags.Size();
    var photos := tag.GetPhotos();
    firstStillHasPhoto := photos.Contains(doggo);
  }

  /** `addTagToPhoto` once: the tag records the photo and the photo holds the tag. */
  method TestAddTagToPhoto(env: Env, now: int) returns (size: nat, hasPhoto: bool, photoHasTag: bool)
    ensures size == 1 && hasPhoto && photoHasTag
  {
    var tag := new Tag("Dog");
    var photo := new Photo("doggo", env, now);
    tag.AddTagToPhoto(photo);
    var photos := tag.GetPhotos();
    size := photos.Size();
    hasPhoto := photos.Contains(photo);
    var tags := photo.GetTags();
    photoHasTag := tags.Contains(tag);
  }

  /** `addTagToPhoto` twice: one photo after each add, and it is the photo added. */
  method TestAddSameTagToPhoto(env: Env, now: int)
    returns (firstSize: nat, firstHasPhoto: bool, secondSize: nat, hasPhoto: bool)
    ensures firstSize == 1 && firstHasPhoto && secondSize == 1 && hasPhoto
  {
    var tag := new Tag("Dog");
    var photo := new Photo("doggo", env, now);
    tag.AddTagToPhoto(photo);
    var photos := tag.GetPhotos();
    firstSize := photos.Size();
    firstHasPhoto := photos.Contains(photo);
    tag.AddTagToPhoto(photo);
    secondSize := photos.Size();
    hasPhoto := photos.Contains(photo);
  }

  /** `removeTagFromPhoto` after `addTagToPhoto`: one photo before, and both sides empty after. */
  method TestRemoveTagFromPhoto(env: Env, now: int)
    returns (sizeBefore: nat, hasPhotoBefore: bool, photoCount: nat, tagCount: nat)
    ensures sizeBefore == 1 && hasPhotoBefore && photoCount == 0 && tagCount == 0
  {
    var tag := new Tag("Dog");
    var photo := new Photo("doggo", env, now);
    tag.AddTagToPhoto(photo);
    var photos := tag.GetPhotos();
    sizeBefore := photos.Size();
    hasPhotoBefore := photos.Contains(photo);
    tag.RemoveTagFromPhoto(photo);
    photoCount := photos.Size();
    var tags := photo.GetTags();
    tagCount := tags.Size();
  }

  /** `removeTagFromPhoto` of a photo never added changes nothing. */
  method TestRemoveNonexistentTagFromPhoto(env: Env, now: int) returns (photoCount: nat)
    ensures photoCount == 0
  {
    var tag := new Tag("Dog");
    var photo := new Photo("doggo", env, now);
    tag.RemoveTagFromPhoto(photo);
    var photos := tag.GetPhotos();
    photoCount := photos.Size();
  }

  /**
   * Photo "doggo" and tag "Dog": the objects' association is mirrored when
   * they are new, after `addTag` and after `removeTag`, and both sides end empty.
   */
  method TagAndUntag(env: Env, now: int) returns (tagged: bool, photoCount: nat, tagCount: nat)
    ensures tagged && photoCount == 0 && tagCount == 0
  {
    var doggo := new Photo("doggo", env, now);
    var dog := new Tag("Dog");
    ghost var ps, ts := {doggo}, {dog};
    ghost var g0 := Association.Snapshot(ps, ts);
    assert Association.Mirror(g0) by {
      assert g0 == Association.Empty;
    }

    doggo.AddTag(dog);
    ghost var g1 := Association.Snapshot(ps, ts);
    assert g1 == Association.AddTag(g0, doggo, dog) by {
      Association.SnapshotAfterCall(ps, ts, doggo, dog, g0);
    }
    Association.AddTagKeepsMirror(g0, doggo, dog);
    var photos := dog.GetPhotos();
    tagged := photos.Contains(doggo);

    doggo.RemoveTag(dog);
    ghost var g2 := Association.Snapshot(ps, ts);
    assert g2 == Association.RemoveTag(g1, doggo, dog) by {
      Association.SnapshotAfterCall(ps, ts, doggo, dog, g1);
    }
    Association.RemoveTagKeepsMirrorIffNoClash(g1, doggo, dog);
    assert Association.Mirror(g2);
    photoCount := photos.Size();
    var tags := doggo.GetTags();
    tagCount := tags.Size();
  }
}
