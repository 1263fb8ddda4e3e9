/**
 * `GenericImage`: an image resolved from the local image list, or pulled from
 * a registry when no local image carries its name. The Docker Engine's
 * replies (the image list, the pull, the inspection) are parameters.
 */
module GenericImage {
  import opened Outcomes
  import opened Exceptions
  import opened Text

  /** An entry of the image list: its ID and its `RepoTags`, which may be `null`. */
  datatype ImageSummary = ImageSummary(id: string, repoTags: Option<seq<string>>)

  /** The Docker Engine calls an image makes. */
  datatype ImageCall =
    | ListImages
    | CreateImage(fromImage: string, tag: string)
    | InspectImage(name: string)

  /** The lookup predicate: `RepoTags != null && RepoTags.Contains(name)`. */
  predicate HasTag(image: ImageSummary, name: string) {
    image.repoTags.Some? && name in image.repoTags.value
  }

  /** `FirstOrDefault` over the image list: the position of the first image carrying `name`. */
  function FirstMatch(images: seq<ImageSummary>, name: string): (r: Option<nat>)
    ensures r.None? <==> forall i :: 0 <= i < |images| ==> !HasTag(images[i], name)
    ensures r.Some? ==> r.value < |images| && HasTag(images[r.value], name)
    ensures r.Some? ==> forall j :: 0 <= j < r.value ==> !HasTag(images[j], name)
  {
    if |images| == 0 then None
    else if HasTag(images[0], name) then Some(0)
    else
      match FirstMatch(images[1..], name)
      case None => None
      case Some(k) => Some(k + 1)
  }

  /** `name.Split(':').Last()`: the text after the last `:`, or all of `name` without one. */
  function Tag(name: string): (r: string)
    ensures |r| <= |name| && r == name[|name| - |r|..] && ':' !in r
    ensures |r| == |name| || name[|name| - |r| - 1] == ':'
  {
    AfterLast(name, ':')
  }

  /** A name with a tag yields that tag; a name without `:` is its own tag. */
  lemma TagOf(repository: string, tag: string)
    requires ':' !in tag
    ensures Tag(repository + ":" + tag) == tag
    ensures ':' !in repository ==> Tag(repository) == repository
  {
    AfterLastAppended(repository, ':', tag);
    assert repository + ":" + tag == repository + [':'] + tag;
    AfterLastUnique(repository + ":" + tag, ':', Tag(repository + ":" + tag));
    if ':' !in repository {
      AfterLastUnique(repository, ':', Tag(repository));
      AfterLastUnique(repository, ':', repository);
    }
  }

  /** A registry port is cut off with the host: the pulled tag of
    * `localhost:5000/alpine` is `5000/alpine`. */
  lemma TagAfterRegistryPort()
    ensures Tag("localhost:5000/alpine") == "5000/alpine"
  {
    TagOf("localhost", "5000/alpine");
    assert "localhost" + ":" + "5000/alpine" == "localhost:5000/alpine";
  }

  class Image {
    var imageName: string
    var imageId: Option<string>
    var calls: seq<ImageCall>

    constructor(imageName: string)
      ensures this.imageName == imageName && imageId.None? && calls == []
    {
      this.imageName := imageName;
      imageId := None;
      calls := [];
    }

    /** `Resolve`: `Ok(None)` for the `null` of a cancelled call, the image ID
      * otherwise, or the exception a Docker Engine call threw. */
    method Resolve(cancelled: bool, listed: Result<seq<ImageSummary>, Exn>, pulled: Outcome<Exn>,
                   inspected: Result<string, Exn>) returns (r: Result<Option<string>, Exn>)
      modifies this`imageId, this`calls
      ensures cancelled ==> r == Ok(None) && imageId == old(imageId) && calls == old(calls)
      ensures !cancelled && listed.Err? ==>
        r == Err(listed.error) && imageId == old(imageId) && calls == old(calls) + [ListImages]
      ensures !cancelled && listed.Ok? && FirstMatch(listed.value, imageName).Some? ==>
        var id := listed.value[FirstMatch(listed.value, imageName).value].id;
        r == Ok(Some(id)) && imageId == Some(id) && calls == old(calls) + [ListImages]
      ensures !cancelled && listed.Ok? && FirstMatch(listed.value, imageName).None? ==>
        var pull := old(calls) + [ListImages, CreateImage(imageName, Tag(imageName))];
        && (pulled.Fail? ==> r == Err(pulled.error) && imageId == old(imageId) && calls == pull)
        && (pulled.Pass? && inspected.Err? ==>
              r == Err(inspected.error) && imageId == old(imageId) && calls == pull + [InspectImage(imageName)])
        && (pulled.Pass? && inspected.Ok? ==>
              r == Ok(Some(inspected.value)) && imageId == Some(inspected.value) && calls == pull + [InspectImage(imageName)])
    {
      if cancelled {
        return Ok(None);
      }
      calls := calls + [ListImages];
      if listed.Err? {
        return Err(listed.error);
      }
      var existing := FirstMatch(listed.value, imageName);
      if existing.Some? {
        imageId := Some(listed.value[existing.value].id);
        return Ok(imageId);
      }
      calls := calls + [CreateImage(imageName, Tag(imageName))];
      if pulled.Fail? {
        return Err(pulled.error);
      }
      calls := calls + [InspectImage(imageName)];
      if inspected.Err? {
        return Err(inspected.error);
      }
      imageId := Some(inspected.value);
      return Ok(imageId);
    }
  }
}
