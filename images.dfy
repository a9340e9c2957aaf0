/** convex/images.ts: uploaded images and image-generation jobs. */
module Images {
  import opened Wrappers
  import opened Tables
  import opened Schema
  import opened Store

  /** `updateImageGeneration`: patches `status` and `image`; an absent `image` removes the field. */
  function PatchImageGeneration(s: State, id: Id, status: string, image: Option<string>): (r: Result<State>)
    ensures r.Ok? <==> Has(s.imageGenerations, id)
    ensures r.Ok? ==> r.value == s.(imageGenerations := r.value.imageGenerations)
    ensures r.Ok? && WellFormed(s) ==>
      && WellFormed(r.value)
      && Replaced(s.imageGenerations, r.value.imageGenerations, id,
                  Get(s.imageGenerations, id).value.(status := status, image := image))
  {
    match Get(s.imageGenerations, id)
    case None => Err(NONEXISTENT)
    case Some(g) =>
      var t := s.(imageGenerations := Set(s.imageGenerations, id, g.(status := status, image := image)));
      PatchKeepsWellFormed(s, id, g.(status := status, image := image));
      Ok(t)
  }

  lemma PatchKeepsWellFormed(s: State, id: Id, g: ImageGeneration)
    requires Has(s.imageGenerations, id)
    ensures WellFormed(s) ==>
      && WellFormed(s.(imageGenerations := Set(s.imageGenerations, id, g)))
      && Replaced(s.imageGenerations, Set(s.imageGenerations, id, g), id, g)
  {
    if WellFormed(s) {
      SetReplaces(s.imageGenerations, id, g, s.nextId);
    }
  }

  predicate OwnedImage(subject: string, i: Image) { i.clerkId == subject }
  predicate OwnedGeneration(subject: string, g: ImageGeneration) { g.clerkId == subject }

  /** `getImages`: the caller's images, newest first. */
  function GetImages(s: State, identity: Option<Identity>): (r: Result<seq<Doc<Image>>>)
    ensures r.Err? <==> identity.None?
    ensures r.Err? ==> r.msg == UNAUTHORIZED
    ensures r.Ok? ==> forall i :: 0 <= i < |r.value| ==> r.value[i] in s.images && r.value[i].value.clerkId == identity.value.subject
    ensures r.Ok? ==> forall k :: 0 <= k < |s.images| && s.images[k].value.clerkId == identity.value.subject ==> s.images[k] in r.value
    ensures r.Ok? && WellFormed(s) ==> forall i, j :: 0 <= i < j < |r.value| ==> r.value[i].id > r.value[j].id
  {
    if identity.None? then Err(UNAUTHORIZED)
    else Ok(QueryDesc(s.images, (i: Image) => OwnedImage(identity.value.subject, i)))
  }

  /** `getImageGenerations`: the caller's image generations, newest first. */
  function GetImageGenerations(s: State, identity: Option<Identity>): (r: Result<seq<Doc<ImageGeneration>>>)
    ensures r.Err? <==> identity.None?
    ensures r.Err? ==> r.msg == UNAUTHORIZED
    ensures r.Ok? ==> forall i :: 0 <= i < |r.value| ==>
      r.value[i] in s.imageGenerations && r.value[i].value.clerkId == identity.value.subject
    ensures r.Ok? ==> forall k :: 0 <= k < |s.imageGenerations| && s.imageGenerations[k].value.clerkId == identity.value.subject ==>
      s.imageGenerations[k] in r.value
    ensures r.Ok? && WellFormed(s) ==> forall i, j :: 0 <= i < j < |r.value| ==> r.value[i].id > r.value[j].id
  {
    if identity.None? then Err(UNAUTHORIZED)
    else Ok(QueryDesc(s.imageGenerations, (g: ImageGeneration) => OwnedGeneration(identity.value.subject, g)))
  }

  /** `createImage`: stores the url under the caller's id. */
  method CreateImage(db: Db, identity: Option<Identity>, url: string) returns (r: Result<Id>)
    requires db.Valid()
    modifies db
    ensures db.Valid()
    ensures r.Err? <==> identity.None?
    ensures identity.None? ==> db.Snapshot() == old(db.Snapshot())
    ensures identity.Some? ==>
      && r.value == old(db.nextId) && !Has(old(db.images), r.value)
      && db.Snapshot() == old(db.Snapshot()).(images := old(db.images) + [Doc(r.value, Image(url, identity.value.subject))],
                                             nextId := r.value + 1)
  {
    if identity.None? {
      return Err(UNAUTHORIZED);
    }
    var id := db.nextId;
    AppendKeepsIncreasing(db.images, id, Image(url, identity.value.subject));
    db.images := db.images + [Doc(id, Image(url, identity.value.subject))];
    db.nextId := id + 1;
    r := Ok(id);
  }

  /** `createImageGeneration`: a new job owned by the caller, with no image yet. */
  method CreateImageGeneration(db: Db, identity: Option<Identity>, prompt: string, imageType: string,
                               status: string, selectedImage: Option<SelectedImage>) returns (r: Result<Id>)
    requires db.Valid()
    modifies db
    ensures db.Valid()
    ensures r.Err? <==> identity.None?
    ensures identity.None? ==> db.Snapshot() == old(db.Snapshot())
    ensures identity.Some? ==>
      && r.value == old(db.nextId) && !Has(old(db.imageGenerations), r.value)
      && db.Snapshot() == old(db.Snapshot()).(
           imageGenerations := old(db.imageGenerations)
             + [Doc(r.value, ImageGeneration(identity.value.subject, prompt, imageType, None, status, selectedImage))],
           nextId := r.value + 1)
  {
    if identity.None? {
      return Err(UNAUTHORIZED);
    }
    var id := db.nextId;
    var g := ImageGeneration(identity.value.subject, prompt, imageType, None, status, selectedImage);
    AppendKeepsIncreasing(db.imageGenerations, id, g);
    db.imageGenerations := db.imageGenerations + [Doc(id, g)];
    db.nextId := id + 1;
    r := Ok(id);
  }

  /** `updateImageGeneration`. */
  method UpdateImageGeneration(db: Db, imageId: Id, status: string, image: Option<string>) returns (r: Result<()>)
    requires db.Valid()
    modifies db
    ensures db.Valid()
    ensures var p := PatchImageGeneration(old(db.Snapshot()), imageId, status, image);
      r.Ok? == p.Ok? && db.Snapshot() == if p.Ok? then p.value else old(db.Snapshot())
  {
    var g := Get(db.imageGenerations, imageId);
    if g.None? {
      return Err(NONEXISTENT);
    }
    SetReplaces(db.imageGenerations, imageId, g.value.(status := status, image := image), db.nextId);
    db.imageGenerations := Set(db.imageGenerations, imageId, g.value.(status := status, image := image));
    r := Ok(());
  }

  /** `deleteImageGeneration`: removes the job and reports `{ success: true }`; a missing id fails. */
  method DeleteImageGeneration(db: Db, imageId: Id) returns (r: Result<bool>)
    requires db.Valid()
    modifies db
    ensures db.Valid()
    ensures r.Ok? <==> Has(old(db.imageGenerations), imageId)
    ensures r.Ok? ==> r.value
    ensures !Has(db.imageGenerations, imageId)
    ensures forall j :: j != imageId ==> Get(db.imageGenerations, j) == Get(old(db.imageGenerations), j)
    ensures db.Snapshot() == old(db.Snapshot()).(imageGenerations := Remove(old(db.imageGenerations), imageId))
  {
    forall j ensures Get(Remove(db.imageGenerations, imageId), j) == if j == imageId then None else Get(db.imageGenerations, j) {
      GetAfterRemove(db.imageGenerations, imageId, j);
    }
    RemoveKeepsIncreasing(db.imageGenerations, imageId, db.nextId);
    var present := Has(db.imageGenerations, imageId);
    db.imageGenerations := Remove(db.imageGenerations, imageId);
    if !present {
      return Err("Delete on nonexistent document ID");
    }
    r := Ok(true);
  }
}
