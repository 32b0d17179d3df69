/**
 The image service: a map from image names to placeholder images. A pull
 strips the tag from the reference and registers the name once, provided the
 image directory has an entry for it; status and removal use the reference
 exactly as given.
 */
module Images {
  import opened Cri

  /**
   `strings.SplitN(ref, ":", 2)[0]`: the part of the reference before its
   first `:`, or the whole reference when it has none.
   */
  function ImageName(ref: string): (name: string)
    ensures |name| <= |ref| && name == ref[..|name|]
    ensures ':' !in name
    ensures |name| < |ref| ==> ref[|name|] == ':'
  {
    if ref == [] then []
    else if ref[0] == ':' then []
    else [ref[0]] + ImageName(ref[1..])
  }

  /** The three properties of ImageName's contract pin the name down. */
  lemma {:induction false} ImageNameUnique(ref: string, p: string)
    requires |p| <= |ref| && p == ref[..|p|] && ':' !in p
    requires |p| < |ref| ==> ref[|p|] == ':'
    ensures p == ImageName(ref)
  {
  }

  /** Any tag after the name is dropped. */
  lemma ImageNameDropsTag(name: string, tag: string)
    requires ':' !in name
    ensures ImageName(name + ":" + tag) == name
  {
    ImageNameUnique(name + ":" + tag, name);
  }

  /** A reference without a tag is its own name. */
  lemma ImageNameOfUntagged(name: string)
    requires ':' !in name
    ensures ImageName(name) == name
  {
    ImageNameUnique(name, name);
  }

  /** Two references for one name with different tags give the same name. */
  lemma ImageNameIgnoresTag(name: string, tag1: string, tag2: string)
    requires ':' !in name
    ensures ImageName(name + ":" + tag1) == ImageName(name + ":" + tag2) == name
  {
    ImageNameDropsTag(name, tag1);
    ImageNameDropsTag(name, tag2);
  }

  /** makeFakeImage: the placeholder image registered for a name. */
  function MakeFakeImage(id: string): (img: Image)
  {
    Image(id, [], 1)
  }

  /** `<rootdir>/images/<name>`, the entry whose existence gates a pull. */
  function ImagePath(rootDir: string, name: string): (path: string)
  {
    rootDir + "/images/" + name
  }

  /** The ListImages filter: an image spec, when given, must be one of the repo tags. */
  predicate ImageSelected(filter: Option<ImageFilter>, img: Image)
  {
    match filter
    case None => true
    case Some(f) => f.image.None? || f.image.value in img.repoTags
  }

  /** Every registered image is the placeholder for its own, tag-free, name. */
  predicate RegistryOk(images: map<string, Image>)
  {
    forall n :: n in images ==> ':' !in n && images[n] == MakeFakeImage(n)
  }

  /** No registered name carries a tag, so a tagged reference never has a status. */
  lemma TaggedReferenceIsNeverRegistered(images: map<string, Image>, ref: string)
    requires RegistryOk(images) && ':' in ref
    ensures ref !in images
  {
  }

  /** Repo tags are always empty, so an image filter selects nothing. */
  lemma ImageFilterSelectsNothing(images: map<string, Image>, f: ImageFilter)
    requires RegistryOk(images) && f.image.Some?
    ensures forall n :: n in images ==> !ImageSelected(Some(f), images[n])
  {
  }

  class ImageService {
    const rootDir: string
    var images: map<string, Image>
    /** The paths whose existence the service has checked, in order. */
    ghost var lookups: seq<string>

    ghost predicate Valid()
      reads this
    {
      RegistryOk(images)
    }

    constructor (rootDir: string)
      ensures Valid() && this.rootDir == rootDir && images == map[] && lookups == []
    {
      this.rootDir := rootDir;
      images := map[];
      lookups := [];
    }

    /** Each selected image exactly once, in no particular order. */
    method ListImages(filter: Option<ImageFilter>) returns (result: seq<Image>)
      requires Valid()
      ensures forall i :: 0 <= i < |result| ==>
        result[i].id in images && result[i] == images[result[i].id] && ImageSelected(filter, result[i])
      ensures forall n :: n in images && ImageSelected(filter, images[n]) ==> images[n] in result
      ensures forall i, j :: 0 <= i < j < |result| ==> result[i].id != result[j].id
    {
      result := [];
      var pending := images.Keys;
      while pending != {}
        invariant pending <= images.Keys
        invariant forall i :: 0 <= i < |result| ==>
          && result[i].id in images && result[i].id !in pending
          && result[i] == images[result[i].id] && ImageSelected(filter, result[i])
        invariant forall n :: n in images && n !in pending && ImageSelected(filter, images[n]) ==> images[n] in result
        invariant forall i, j :: 0 <= i < j < |result| ==> result[i].id != result[j].id
        decreases pending
      {
        var n :| n in pending;
        pending := pending - {n};
        var img := images[n];
        if filter.Some? && filter.value.image.Some? {
          if filter.value.image.value !in img.repoTags {
            continue;
          }
        }
        result := result + [img];
      }
    }

    /** Exact-key lookup of the reference as given; an unknown one has no image, which is not an error. */
    method ImageStatus(ref: string) returns (r: Option<Image>)
      ensures ref in images ==> r == Some(images[ref])
      ensures ref !in images ==> r == None
    {
      if ref in images {
        return Some(images[ref]);
      }
      return None;
    }

    /**
     Register the tag-free name of `ref`. A known name answers at once,
     without looking at the image directory; an unknown one is registered
     only when `present` (its image directory entry exists).
     */
    method PullImage(ref: string, present: bool) returns (r: Result<string>)
      requires Valid()
      modifies this
      ensures Valid()
      ensures var name := ImageName(ref);
        if name in old(images) then
          r == Ok(name) && images == old(images) && lookups == old(lookups)
        else
          && lookups == old(lookups) + [ImagePath(rootDir, name)]
          && if present then
               && r == Ok(name)
               && images == old(images)[name := MakeFakeImage(name)]
               && images.Keys == old(images).Keys + {name}
             else
               r == Err(ImageNotExists(ImagePath(rootDir, name))) && images == old(images)
    {
      var name := ImageName(ref);
      if name !in images {
        var path := ImagePath(rootDir, name);
        lookups := lookups + [path];
        if !present {
          return Err(ImageNotExists(path));
        }
        images := images[name := MakeFakeImage(name)];
      }
      return Ok(name);
    }

    /** Unconditional delete of the reference as given; an unknown one is a successful no-op. */
    method RemoveImage(ref: string) returns (r: Result<()>)
      requires Valid()
      modifies this
      ensures Valid() && r == Ok(())
      ensures images == old(images) - {ref} && lookups == old(lookups)
    {
      images := images - {ref};
      return Ok(());
    }
  }
}
