# Photo–tag association of SimpleImageRepository, in Dafny

This project models the `model` package of SimpleImageRepository, a small
personal image collection. A `Photo` has a fixed name, an optional
description, and a date added. It also has two file paths derived from the
name, and a set of `Tag`s. Each `Tag` has a name and the set of photos
labelled with it.

The two sides point at each other. `Photo.addTag` / `removeTag` update the
photo's set and then call `Tag.addTagToPhoto` / `removeTagFromPhoto`. Those
update the tag's set and call back into the photo. The call back finds the
association already recorded and stops. Tags compare equal by name. Photos
compare by identity.

Files:

- `java_lang.dfy` (module `JavaLang`). The Java pieces the model needs: a
  nullable value (`Option`), 32-bit `int` wrap-around, `String.hashCode` and
  `Objects.hash`.
- `model.dfy` (module `Model`). Classes `Photo` and `Tag`, with fields and
  mutually recursive methods as in the source. `getTags()` and `getPhotos()`
  return the live read-only views `TagsView` and `PhotosView`.
  - A photo's `HashSet<Tag>` is a `map<string, Tag>`. It maps each name to
    the first instance added under that name, because the set compares
    elements by name.
  - Each method's postcondition gives its effect on the two sets it touches,
    as a closed-form function (`AfterAddTag`, `AfterRemoveTag`,
    `AfterAddTagToPhoto`, `AfterRemoveTagFromPhoto`).
  - The mutual recursion terminates. Its `decreases` measure is the number
    of sides not yet updated (`AddPending` / `RemovePending`). That number is
    at most 2 and drops with every hop.
- `association.dfy` (module `Association`). The association as a value
  (`Graph`), built from the same `After…` functions.
  - The mirror invariant `t ∈ p.tags ⇔ p ∈ t.photos`, and which calls
    preserve it. Here `t ∈ p.tags` means that `p` holds the instance `t`
    itself under `t`'s name (`Model.Stored`).
  - Idempotence, no-op conditions, add-then-remove round trips.
  - Any sequence of calls that uses one instance per name keeps the mirror.
  - `Snapshot` ties real objects to the value.
- `scenarios.dfy` (module `Scenarios`). The unit tests in
  `src/test/PhotoTest.java` and `src/test/TagTest.java`, written as methods
  whose outputs are what each test observes. Also the two name-collision
  cases, and an end-to-end run, written against the `Model` classes, that
  shows the mirror holds at each step.

Environment and clock. The system properties `user.dir` and
`file.separator` (an `Env`) and the `new Date()` reading (`now`) are
parameters of the `Photo` constructor. Java reads the two properties once,
into `static final` fields (src/main/model/Photo.java:22-23), so every photo
of a run shares them. Callers of the model pass one `Env` for the whole run,
and `StorePathInjective` and `ImageAndThumbnailPathsDiffer` are stated about
paths built under one `Env`.

Two instances with one name. The mirror invariant is stated at the level of
instances: `t ∈ p.tags` holds when `p` holds `t` itself under `t`'s name.
Java's `p.getTags().contains(t)` looks up by name instead, through
`Tag.equals`. The two readings agree when one instance per name is in use
(`Association.InternedMirrorObservable`), but not otherwise. The
instance-level mirror cannot survive every call when a caller holds two `Tag`
instances with the same name. The model shows exactly which calls are
affected; each statement below is about the instance-level mirror:

- `Photo.addTag` and `Tag.removeTagFromPhoto` keep the mirror in every case.
- `Photo.removeTag` and `Tag.addTagToPhoto` keep it exactly when the instance
  passed in is the one the photo holds under that name, or the name is not
  held at all (`NoClash`).

The `equals` Javadoc (src/main/model/Tag.java:62-67) treats tags with one
name as the same tag, and src/test/PhotoTest.java:93-104 checks that a second
instance with the same name is not added. When each name has only one
instance in use, the code keeps both sides in step. With two instances, the
instance-level mirror breaks:

- `p.removeTag(t2)` drops the held `t1` by name. But `t1` still lists `p`.
- `t2.addTagToPhoto(p)` makes `t2` list `p`. But `p` keeps `t1`.

## Model

| member | source | states |
|---|---|---|
| `Model.Photo.constructor` | src/main/model/Photo.java:41-46 | the new photo has the given name and the clock reading as its date, no description and no tags; its image path is `<user.dir><sep>photos<sep><name>.jpg` and its thumbnail path `<user.dir><sep>thumbnails<sep><name>.jpg`; name, date and paths are constants |
| `Model.Photo.SetDescription` | src/main/model/Photo.java:67-69 | the description becomes the argument, which may be `null`; only the description field may change (the `modifies` frame), so the tags stay as they were |
| `Model.Photo.AddTag` | src/main/model/Photo.java:97-102 | terminates. If the photo already holds a tag of this name, nothing changes: no set moves, including the argument's. Otherwise the photo holds the argument under its name and the argument records the photo |
| `Model.Photo.RemoveTag` | src/main/model/Photo.java:109-114 | terminates. If no tag of this name is held, nothing changes. Otherwise the held tag of that name, whichever instance it is, is dropped, and the argument stops recording the photo |
| `Model.Photo.GetName` | src/main/model/Photo.java:51-53 | returns the name, a constant fixed by the constructor |
| `Model.Photo.GetDescription` | src/main/model/Photo.java:58-60 | returns the current description: `null` until `setDescription` is called, then the last value set |
| `Model.Photo.GetDateAdded` | src/main/model/Photo.java:74-76 | returns the clock reading taken by the constructor, a constant |
| `Model.Photo.GetTags` | src/main/model/Photo.java:119-121 | returns a new view bound to this photo. The view has no mutators, and its size, membership and elements are read from the photo's current tags |
| `Model.Tag.constructor` | src/main/model/Tag.java:20-22 | the new tag has the given name, which is a constant, and records no photo |
| `Model.Tag.GetName` | src/main/model/Tag.java:27-29 | returns the name, a constant fixed by the constructor |
| `Model.Tag.GetPhotos` | src/main/model/Tag.java:34-36 | returns a new view bound to this tag. The view has no mutators and reads the tag's current photos |
| `Model.Tag.AddTagToPhoto` | src/main/model/Tag.java:43-48 | terminates. If the photo is already recorded, nothing changes. Otherwise the tag records the photo; the photo holds this tag unless it already holds another tag of the same name, which it keeps |
| `Model.Tag.RemoveTagFromPhoto` | src/main/model/Tag.java:55-60 | terminates. If the photo is not recorded, nothing changes. Otherwise the tag stops recording it and the photo drops the tag held under this name |
| `Model.Tag.Equals` | src/main/model/Tag.java:68-74 | true exactly when the argument is a non-null `Tag` with the same name; the identity shortcut is subsumed |
| `Model.Tag.HashCode` | src/main/model/Tag.java:76-79 | `Objects.hash(name)` is a Java `int` computed from the name alone |
| `Model.EqualTagsHashAlike` | src/main/model/Tag.java:68-79 | tags that are `equals` have the same `hashCode`, and `equals` is symmetric on tags |
| `Model.StorePathInjective` | src/main/model/Photo.java:44-45 | within one store directory, two names that give the same path are the same name |
| `Model.ImageAndThumbnailPathsDiffer` | src/main/model/Photo.java:19-20 | no image path equals any thumbnail path, because the `photos` and `thumbnails` directories differ at their first letter |
| `JavaLang.StringHashCode` | src/main/model/Tag.java:77-79 | `String.hashCode`, the `31 * h + c` recurrence in `int` arithmetic, always yields a Java `int` |
| `JavaLang.StringHashCodeIsPolynomial` | src/main/model/Tag.java:77-79 | wrapping at each step of the recurrence gives the documented `s[0]*31^(n-1) + … + s[n-1]`, wrapped once |
| `JavaLang.ObjectsHash` | src/main/model/Tag.java:77-79 | `Objects.hash` of one value with hash `h` is the Java `int` `31 + h` |
| `Association.AddTag` | src/main/model/Photo.java:97-102 | `p.addTag(t)` on the association value: `p`'s tags and `t`'s photos become exactly what `AfterAddTag` gives, the same effect `Model.Photo.AddTag` ensures, and every other photo and tag keeps its sets |
| `Association.RemoveTag` | src/main/model/Photo.java:109-114 | `p.removeTag(t)` on the association value: `p`'s tags and `t`'s photos become exactly what `AfterRemoveTag` gives, as `Model.Photo.RemoveTag` ensures, and nothing else changes |
| `Association.AddTagToPhoto` | src/main/model/Tag.java:43-48 | `t.addTagToPhoto(p)` on the association value: the two sets become what `AfterAddTagToPhoto` gives, as `Model.Tag.AddTagToPhoto` ensures, and nothing else changes |
| `Association.RemoveTagFromPhoto` | src/main/model/Tag.java:55-60 | `t.removeTagFromPhoto(p)` on the association value: the two sets become what `AfterRemoveTagFromPhoto` gives, as `Model.Tag.RemoveTagFromPhoto` ensures, and nothing else changes |
| `Association.MirrorIsPairwise` | src/main/model/Tag.java:43-60 | the mirror invariant holds exactly when `t ∈ p.tags ⇔ p ∈ t.photos` for every photo `p` and tag `t`, where `t ∈ p.tags` means that `p` holds the instance `t` under `t`'s name; the by-name `contains` that Java exposes agrees with it only when one instance per name is in use (`Association.InternedMirrorObservable`) |
| `Association.AddTagKeepsMirror` | src/main/model/Photo.java:97-102 | `p.addTag(t)` keeps the mirror invariant, for every argument instance |
| `Association.RemoveTagFromPhotoKeepsMirror` | src/main/model/Tag.java:55-60 | `t.removeTagFromPhoto(p)` keeps the mirror invariant, for every argument instance |
| `Association.RemoveTagKeepsMirrorIffNoClash` | src/main/model/Photo.java:109-114 | from a mirrored state, `p.removeTag(t)` leaves a mirrored state if and only if `p` holds no other instance under `t`'s name |
| `Association.AddTagToPhotoKeepsMirrorIffNoClash` | src/main/model/Tag.java:43-48 | from a mirrored state, `t.addTagToPhoto(p)` leaves a mirrored state if and only if `p` holds no other instance under `t`'s name |
| `Association.SimilarTagRemoveBreaksMirror` | src/main/model/Photo.java:109-114 | after `p.addTag(t1)`, `p.removeTag(t2)` with `t2` another instance of the same name empties `p`'s entry for the name while `t1` still records `p`, so the mirror is broken |
| `Association.EntryPointsAgree` | src/main/model/Tag.java:43-60 | in a mirrored state without a name clash, calling from the tag side has the same effect as calling from the photo side, for add and for remove |
| `Association.StepKeepsKeyed` | src/main/model/Photo.java:97-114 | every call keeps each held tag filed under its own name |
| `Association.AddTagIdempotent` | src/main/model/Photo.java:97-102 | a second `addTag`, with the same instance or another of the same name, leaves the state of the first: one tag, and the second instance's photos untouched |
| `Association.AddTagToPhotoIdempotent` | src/main/model/Tag.java:43-48 | a second `addTagToPhoto` with the same photo changes nothing |
| `Association.AddTagNoopIff` | src/main/model/Photo.java:98 | `addTag` changes nothing if and only if a tag of the argument's name is already held |
| `Association.RemoveTagNoopIff` | src/main/model/Photo.java:110 | `removeTag` changes nothing if and only if no tag of the argument's name is held |
| `Association.AddTagToPhotoNoopIff` | src/main/model/Tag.java:44 | `addTagToPhoto` changes nothing if and only if the photo is already recorded |
| `Association.RemoveTagFromPhotoNoopIff` | src/main/model/Tag.java:56 | `removeTagFromPhoto` changes nothing if and only if the photo is not recorded |
| `Association.AddThenRemoveRestores` | src/main/model/Photo.java:97-114 | in a mirrored state, adding a tag whose name is free and then removing it gives back the original state, from either side |
| `Association.RunKeepsMirror` | src/main/model/Tag.java:43-60 | every sequence of the four calls whose tags come from a set with one instance per name keeps the mirror invariant after each call |
| `Association.InternedMirrorObservable` | src/main/model/Photo.java:119-121 | with one instance per name, the mirror holds in the observable form: `p.getTags().contains(t)`, a lookup by name, exactly when `t.getPhotos().contains(p)` |
| `Scenarios.TestNewPhoto` | src/test/PhotoTest.java:29-32 | a new photo reports its name, a `null` description, no tags, the clock reading as its date, and the two concatenated paths |
| `Scenarios.TestSetAndGetDescription` | src/test/PhotoTest.java:34-40 | the description starts `null`, then reads back as the text that was set, and the tags stay empty |
| `Scenarios.TestAddOneTag` | src/test/PhotoTest.java:72-80 | after one `addTag` the photo has one tag, contains it, and the tag records the photo |
| `Scenarios.TestAddSameTagTwice` | src/test/PhotoTest.java:82-91 | adding one instance twice leaves one tag, and the tag records the photo once |
| `Scenarios.TestAddSimilarTagTwice` | src/test/PhotoTest.java:93-104 | adding a second instance of the same name leaves one tag, which is the first instance; the first records the photo and the second records nothing |
| `Scenarios.TestRemoveTag` | src/test/PhotoTest.java:106-117 | a tags view taken before `removeTag` has size 1 and contains the tag before, has size 0 after, and the tag records no photo |
| `Scenarios.TestRemoveNonexistentTag` | src/test/PhotoTest.java:119-126 | removing a tag never added leaves the tags view at size 0 |
| `Scenarios.RemoveSimilarTag` | src/main/model/Photo.java:109-114 | removing by a second instance of the held name empties the photo's tags while the first instance still records the photo |
| `Scenarios.TestTagGetName` | src/test/TagTest.java:24-27 | a tag reports the name it was built with |
| `Scenarios.TestAddTagToPhoto` | src/test/TagTest.java:29-36 | after one `addTagToPhoto` the tag records one photo, that photo, and the photo holds the tag |
| `Scenarios.TestAddSameTagToPhoto` | src/test/TagTest.java:38-52 | the photos view has size 1 and contains the photo after the first add, and again after the second |
| `Scenarios.TestRemoveTagFromPhoto` | src/test/TagTest.java:54-64 | after an add the photos view has size 1 and contains the photo; after `removeTagFromPhoto` both the tag's photos and the photo's tags are empty |
| `Scenarios.TestRemoveNonexistentTagFromPhoto` | src/test/TagTest.java:66-71 | removing a photo never added leaves the photos view at size 0 |
| `Scenarios.TagAndUntag` | src/main/model/Photo.java:97-114 | on real objects, tagging and untagging "doggo" with "Dog" keeps the graph mirrored at every step and ends with both sides empty |

## Left out

- `Photo.loadImage`, `createThumbnail`, `loadThumbnail`, `getImage`, `getThumbnail` (src/main/model/Photo.java:78-90, 123-155): these are file reads and writes through ImageIO and the Thumbnailator library, with `IOException` swallowed. They are foreign calls and image resampling. The `image` and `thumbnail` fields are not modelled either.
- `dateAdded`: the `new Date()` reading is the constructor parameter `now` and never changes afterwards. `getDateAdded()` returns the photo's own mutable `Date`, which a caller could change with `setTime`; the model has no such alias, and nothing in the program does that. The timing-dependent `testDateAdded` is not modelled.
- `src/main/ui/ImageRepoGUI.java`: Swing layout, file chooser, file copy and delete, and directory listing, which are not part of this model. That includes the choice between loading a stored thumbnail and creating a new one (src/main/ui/ImageRepoGUI.java:69-87), which depends on a directory listing.
- The tests that check files on disk (src/test/PhotoTest.java:47-70) depend on on-disk fixtures.
- Null arguments: the `Tag` and `Photo` parameters of `addTag`, `removeTag`, `addTagToPhoto` and `removeTagFromPhoto` are non-null references in the model. In the source, `p.addTag(null)` (src/main/model/Photo.java:98-100) stores `null` in the photo's tags and then throws a `NullPointerException` at `tag.addTagToPhoto(this)`, leaving the `null` behind. `t.addTagToPhoto(null)` (src/main/model/Tag.java:44-46) does the same to the tag's photos. `removeTag(null)` and `removeTagFromPhoto(null)` do nothing unless such a `null` was left behind earlier, in which case they remove it and then throw. That partial update followed by the exception is not modelled.
- Null names: `Tag` and `Photo` names are non-null strings. `Objects.equals` and `Objects.hash` on a `null` name, and the `"null"` that Java string concatenation would put in a path, are not modelled.
- `JavaLang.StringHashCode`: works on Dafny `char`s, which are Unicode scalar values. Java hashes UTF-16 code units, so the two differ for characters outside the Basic Multilingual Plane.
- Encapsulation: the `private` fields `tags` and `photos` are ordinary fields of the Dafny classes, so any client could assign them, including through `TagsView.photo` and `PhotosView.tag`. The `Call` datatype of `Association` stands for the Java guarantee that only the four add and remove methods change the two sets, and `RunKeepsMirror` relies on it.
- `HashSet` iteration order and capacity are not modelled. Sets and maps are mathematical.
- The mirror invariant is stated over the `Graph` value, and on real objects through `Association.Snapshot` of a chosen set of photos and tags. The class methods do not carry the invariant themselves; each one states its exact effect on the two sets it touches.
