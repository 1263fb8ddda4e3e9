/**
 * The `Container.Abstractions` `ResourceReaper`: static state shared by every
 * container of the process. It starts the Ryuk companion at most once, hands
 * it the session's label filter, registers the process-exit cleanup hook at
 * most once and collects the images to delete at exit.
 */
module AbstractionsReaper {
  import opened Outcomes
  import opened Text
  import opened Dicts
  import opened Exceptions

  const DefaultRyukImage: string := "quay.io/testcontainers/ryuk:0.2.3"

  /** `typeof(IContainer).FullName`. */
  const TestContainerLabelName: string := "TestContainers.Container.Abstractions.IContainer"
  const TestContainerSessionLabelName: string := TestContainerLabelName + ".SessionId"

  /** The `REAPER_DISABLED` check; `None` is an unset variable. */
  predicate ReaperDisabled(v: Option<string>) {
    !IsNullOrWhiteSpace(v) && (v.value == "1" || Lower(v.value) == "true")
  }

  lemma LowerMatchesIgnoringCase(c: char, l: char)
    requires 'a' <= l <= 'z'
    ensures LowerChar(c) == l <==> UpperChar(c) == UpperChar(l)
  {
  }

  /** The reaper is disabled exactly by `"1"` or by `"true"` in any letter case;
    * the white-space test adds nothing. */
  lemma ReaperDisabledIff(v: Option<string>)
    ensures ReaperDisabled(v) <==> v.Some? && (v.value == "1" || EqualsIgnoreCase(v.value, "true"))
  {
    if v.Some? {
      var s := v.value;
      if |s| == 4 {
        forall i | 0 <= i < 4 ensures LowerChar(s[i]) == "true"[i] <==> UpperChar("true"[i]) == UpperChar(s[i]) {
          LowerMatchesIgnoringCase(s[i], "true"[i]);
        }
        assert Lower(s) == "true" <==> forall i :: 0 <= i < 4 ==> LowerChar(s[i]) == "true"[i];
      }
      if s == "1" || Lower(s) == "true" {
        assert !IsWhiteSpace(s[0]);
      }
    }
  }

  /** The image from `REAPER_IMAGE`, or the default one when it is unset or blank. */
  function ReaperImage(v: Option<string>): (r: string)
    ensures IsNullOrWhiteSpace(v) ==> r == DefaultRyukImage
    ensures !IsNullOrWhiteSpace(v) ==> r == v.value
  {
    if IsNullOrWhiteSpace(v) then DefaultRyukImage else v.value
  }

  /** `Labels`: exactly the marker label and the session label. */
  function Labels(sessionId: string): (r: Dict<string, string>)
    ensures |r| == 2
    ensures r[0] == (TestContainerLabelName, "true") && r[1] == (TestContainerSessionLabelName, sessionId)
  {
    assert |TestContainerLabelName| != |TestContainerSessionLabelName|;
    [(TestContainerLabelName, "true"), (TestContainerSessionLabelName, sessionId)]
  }

  /** The filters handed to the Ryuk container. */
  datatype Filter = LabelsFilter(labels: seq<(string, string)>)

  /** `ImageDeleteParameters` with the image it is sent for. */
  datatype ImageDelete = ImageDelete(image: string, force: bool, pruneChildren: bool)

  /** `PerformCleanup`: one forced delete that keeps the children per registered image. */
  function CleanupRequests(images: set<string>): (r: set<ImageDelete>)
    ensures forall d :: d in r <==> d.image in images && d.force && !d.pruneChildren
  {
    set i | i in images :: ImageDelete(i, true, false)
  }

  /** Exactly one delete per image. */
  lemma {:induction false} CleanupRequestsCount(images: set<string>)
    ensures |CleanupRequests(images)| == |images|
    decreases |images|
  {
    if images != {} {
      var i :| i in images;
      var rest := images - {i};
      CleanupRequestsCount(rest);
      assert CleanupRequests(images) == CleanupRequests(rest) + {ImageDelete(i, true, false)};
      assert ImageDelete(i, true, false) !in CleanupRequests(rest);
    }
  }

  class ResourceReaper {
    const sessionId: string                 // SessionId
    var ryukImage: Option<string>           // the image _ryukContainer was created with
    var ryukCreations: nat                  // how many Ryuk containers were created
    var initialised: bool                   // _ryukStartupTaskCompletionSource != null
    var completed: bool                     // that completion source is set
    var hookRegistered: bool                // _shutdownHookRegistered
    var hookRegistrations: nat              // handler pairs added to ProcessExit/CancelKeyPress
    var imagesToDelete: set<string>         // ImagesToDelete
    var filters: seq<Filter>                // what _ryukContainer.AddToDeathNote received

    /** Once started, the reaper has created exactly one Ryuk container, handed it
      * the session filter first and completed; the hook is registered at most once. */
    predicate Valid()
      reads this
    {
      (initialised <==> ryukImage.Some?) &&
      ryukCreations == (if initialised then 1 else 0) &&
      (completed <==> initialised) &&
      (initialised ==> |filters| > 0 && filters[0] == LabelsFilter(Labels(sessionId))) &&
      (!initialised ==> filters == []) &&
      hookRegistrations == (if hookRegistered then 1 else 0)
    }

    /** The state of the static class before its first use. */
    constructor(sessionId: string)
      ensures Valid() && this.sessionId == sessionId
      ensures ryukImage.None? && !hookRegistered && imagesToDelete == {} && filters == []
    {
      this.sessionId := sessionId;
      ryukImage, ryukCreations, initialised, completed := None, 0, false, false;
      hookRegistered, hookRegistrations, imagesToDelete, filters := false, 0, {}, [];
    }

    /** `SetupShutdownHook`: registers the cleanup handlers unless already done. */
    method SetupShutdownHook()
      requires Valid()
      modifies this`hookRegistered, this`hookRegistrations
      ensures Valid() && hookRegistered && hookRegistrations == 1
    {
      if hookRegistered {
        return;
      }
      hookRegistrations := hookRegistrations + 1;
      hookRegistered := true;
    }

    /** `StartAsync`, with the two environment variables as inputs. The Ryuk
      * container's own start is not an input: the `ContinueWith` continuation
      * runs whether that start succeeded or failed, so the session filter is
      * added and the completion set either way. */
    method StartAsync(disabledVar: Option<string>, imageVar: Option<string>) returns (o: Outcome<Exn>)
      requires Valid()
      modifies this
      ensures Valid() && o.Pass?
      ensures ReaperDisabled(disabledVar) ==>
        ryukImage == old(ryukImage) && filters == old(filters) && hookRegistered == old(hookRegistered) &&
        ryukCreations == old(ryukCreations) && completed == old(completed)
      ensures !ReaperDisabled(disabledVar) ==>
        completed && hookRegistered &&
        ryukImage == (if old(initialised) then old(ryukImage) else Some(ReaperImage(imageVar))) &&
        filters == old(filters) + (if old(initialised) then [] else [LabelsFilter(Labels(sessionId))])
      ensures imagesToDelete == old(imagesToDelete)
    {
      if ReaperDisabled(disabledVar) {
        return Pass;
      }
      var image := ReaperImage(imageVar);
      if !initialised {
        initialised := true;
        ryukImage := Some(image);
        ryukCreations := ryukCreations + 1;
        filters := filters + [LabelsFilter(Labels(sessionId))];
        completed := true;
      }
      SetupShutdownHook();
      return Pass;
    }

    /** `RegisterFilterForCleanup`: hands the filter to the Ryuk container, which
      * is a null dereference before the reaper has started. */
    method RegisterFilterForCleanup(f: Filter) returns (o: Outcome<Exn>)
      requires Valid()
      modifies this`filters
      ensures Valid()
      ensures ryukImage.None? ==> o == Fail(NullDereference) && filters == old(filters)
      ensures ryukImage.Some? ==> o.Pass? && filters == old(filters) + [f]
    {
      if ryukImage.None? {
        return Fail(NullDereference);
      }
      filters := filters + [f];
      return Pass;
    }

    /** `RegisterImageForCleanup`: makes sure the hook exists and adds the image
      * to the set; registering an image twice keeps one entry. */
    method RegisterImageForCleanup(image: string)
      requires Valid()
      modifies this`hookRegistered, this`hookRegistrations, this`imagesToDelete
      ensures Valid() && hookRegistered && hookRegistrations == 1
      ensures imagesToDelete == old(imagesToDelete) + {image}
    {
      SetupShutdownHook();
      imagesToDelete := imagesToDelete + {image};
    }
  }
}
