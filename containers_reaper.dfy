/**
 * The `Containers` variant's `ResourceReaper`: at exit it lists the containers
 * carrying its marker label, keeps those started from the same entry assembly,
 * and kills, then removes, them. The previous-session variant additionally
 * spares the containers of the current session.
 */
module ContainersReaper {
  import opened Outcomes
  import opened Dicts
  import opened Exceptions

  /** `typeof(IContainer).FullName` in this variant. */
  const TestContainerLabelName: string := "TestContainers.Containers.IContainer"
  const TestContainerSessionLabelName: string := TestContainerLabelName + ".SessionId"
  const TestContainerAssemblyLabelName: string := TestContainerLabelName + ".EntryAssembly"

  /** `Labels`: marker, session and entry assembly, in that order. */
  function Labels(sessionId: string, entryAssemblyName: string): (r: Dict<string, string>)
    ensures |r| == 3
    ensures r[0] == (TestContainerLabelName, "true")
    ensures r[1] == (TestContainerSessionLabelName, sessionId)
    ensures r[2] == (TestContainerAssemblyLabelName, entryAssemblyName)
  {
    assert |TestContainerLabelName| < |TestContainerSessionLabelName| < |TestContainerAssemblyLabelName|;
    [(TestContainerLabelName, "true"), (TestContainerSessionLabelName, sessionId),
     (TestContainerAssemblyLabelName, entryAssemblyName)]
  }

  /** A `ContainerListResponse`: its ID and its labels. */
  datatype ListedContainer = ListedContainer(id: string, labels: map<string, string>)

  /** The Docker Engine calls of the reaper: the list with its `label` filter, kill and remove. */
  datatype ReapCall = ListContainers(labelFilter: map<string, bool>) | Kill(id: string) | RemoveContainer(id: string)

  /** The `label` filter of `GetContainersByReaperLabels`: the marker label must be present. */
  const ListFilter: map<string, bool> := map[TestContainerLabelName := true]

  /** LINQ `Where`: the elements satisfying `p`, in their order. */
  function Where<T(!new)>(s: seq<T>, p: T -> bool): (r: seq<T>)
    ensures |r| <= |s|
    ensures forall x :: x in r <==> x in s && p(x)
  {
    if |s| == 0 then []
    else
      assert forall x :: x in s <==> x == s[0] || x in s[1..];
      if p(s[0]) then [s[0]] + Where(s[1..], p) else Where(s[1..], p)
  }

  /** `Where` keeps the order: filtering a concatenation filters each part. */
  lemma {:induction false} WhereAppend<T(!new)>(a: seq<T>, b: seq<T>, p: T -> bool)
    ensures Where(a + b, p) == Where(a, p) + Where(b, p)
  {
    if |a| == 0 {
      assert a + b == b;
    } else {
      assert (a + b)[1..] == a[1..] + b;
      WhereAppend(a[1..], b, p);
    }
  }

  /** The assembly label is present and names the entry assembly. */
  predicate FromEntryAssembly(entryAssemblyName: string, c: ListedContainer) {
    TestContainerAssemblyLabelName in c.labels && c.labels[TestContainerAssemblyLabelName] == entryAssemblyName
  }

  /** The session label, when present, names another session. */
  predicate FromOtherSession(sessionId: string, c: ListedContainer) {
    TestContainerSessionLabelName in c.labels ==> c.labels[TestContainerSessionLabelName] != sessionId
  }

  /** What `GetContainersByReaperLabels` returns for the daemon's answer `listed`. */
  function ByReaperLabels(listed: seq<ListedContainer>, entryAssemblyName: string): (r: seq<ListedContainer>)
    ensures forall c :: c in r <==> c in listed && FromEntryAssembly(entryAssemblyName, c)
  {
    Where(listed, c => FromEntryAssembly(entryAssemblyName, c))
  }

  /** The previous-session selection. */
  function PreviousSession(listed: seq<ListedContainer>, sessionId: string, entryAssemblyName: string): (r: seq<ListedContainer>)
    ensures forall c :: c in r <==> c in listed && FromEntryAssembly(entryAssemblyName, c) && FromOtherSession(sessionId, c)
  {
    Where(ByReaperLabels(listed, entryAssemblyName), c => FromOtherSession(sessionId, c))
  }

  /** The current-session selection filters nothing by session: it reaps every
    * previous-session container, and what it reaps in addition carries this session's label. */
  lemma CurrentCoversPrevious(listed: seq<ListedContainer>, sessionId: string, entryAssemblyName: string, c: ListedContainer)
    ensures c in ByReaperLabels(listed, entryAssemblyName) <==> c in listed && FromEntryAssembly(entryAssemblyName, c)
    ensures c in PreviousSession(listed, sessionId, entryAssemblyName) ==> c in ByReaperLabels(listed, entryAssemblyName)
    ensures c in ByReaperLabels(listed, entryAssemblyName) && c !in PreviousSession(listed, sessionId, entryAssemblyName) ==>
      TestContainerSessionLabelName in c.labels && c.labels[TestContainerSessionLabelName] == sessionId
  {
  }

  /** A container without an assembly label is never reaped, whatever its other labels. */
  lemma UnlabelledNeverReaped(listed: seq<ListedContainer>, sessionId: string, entryAssemblyName: string, c: ListedContainer)
    requires TestContainerAssemblyLabelName !in c.labels
    ensures c !in ByReaperLabels(listed, entryAssemblyName) && c !in PreviousSession(listed, sessionId, entryAssemblyName)
  {
  }

  function Kills(cs: seq<ListedContainer>): (r: seq<ReapCall>)
    ensures |r| == |cs| && forall i :: 0 <= i < |cs| ==> r[i] == Kill(cs[i].id)
  {
    seq(|cs|, i requires 0 <= i < |cs| => Kill(cs[i].id))
  }

  function Removes(cs: seq<ListedContainer>): (r: seq<ReapCall>)
    ensures |r| == |cs| && forall i :: 0 <= i < |cs| ==> r[i] == RemoveContainer(cs[i].id)
  {
    seq(|cs|, i requires 0 <= i < |cs| => RemoveContainer(cs[i].id))
  }

  /** The outcome of `Task.WhenAll` over one task per container, each
    * completing as `reply` says for its container ID: success when every
    * task succeeds, otherwise the exception of the first failing one. */
  function AllOf(cs: seq<ListedContainer>, reply: string -> Outcome<Exn>): (o: Outcome<Exn>)
    ensures o.Pass? <==> forall i :: 0 <= i < |cs| ==> reply(cs[i].id).Pass?
    ensures o.Fail? ==> exists k :: 0 <= k < |cs| && o == reply(cs[k].id) &&
                                    forall j :: 0 <= j < k ==> reply(cs[j].id).Pass?
  {
    if |cs| == 0 then Pass
    else
      var init := cs[..|cs| - 1];
      var first := AllOf(init, reply);
      assert forall i :: 0 <= i < |init| ==> init[i] == cs[i];
      if first.Fail? then first else reply(cs[|cs| - 1].id)
  }

  /** `KillContainers`, with `kill` the daemon's reply to each kill: every
    * kill is issued, and the result is that of waiting for all of them. */
  method KillContainers(cs: seq<ListedContainer>, kill: string -> Outcome<Exn>) returns (o: Outcome<Exn>, calls: seq<ReapCall>)
    ensures calls == Kills(cs)
    ensures o == AllOf(cs, kill)
  {
    o, calls := Pass, [];
    for i := 0 to |cs|
      invariant calls == Kills(cs[..i])
      invariant o == AllOf(cs[..i], kill)
    {
      assert cs[..i + 1][..i] == cs[..i];
      calls := calls + [Kill(cs[i].id)];
      if o.Pass? {
        o := kill(cs[i].id);
      }
    }
    assert cs[..|cs|] == cs;
  }

  /** `RemoveContainers`, with `remove` the daemon's reply to each remove:
    * every remove is issued, and the result is that of waiting for all of
    * them. */
  method RemoveContainers(cs: seq<ListedContainer>, remove: string -> Outcome<Exn>) returns (o: Outcome<Exn>, calls: seq<ReapCall>)
    ensures calls == Removes(cs)
    ensures o == AllOf(cs, remove)
  {
    o, calls := Pass, [];
    for i := 0 to |cs|
      invariant calls == Removes(cs[..i])
      invariant o == AllOf(cs[..i], remove)
    {
      assert cs[..i + 1][..i] == cs[..i];
      calls := calls + [RemoveContainer(cs[i].id)];
      if o.Pass? {
        o := remove(cs[i].id);
      }
    }
    assert cs[..|cs|] == cs;
  }

  /** Each selected container is killed and then removed, and every kill comes before every remove. */
  predicate KillThenRemove(calls: seq<ReapCall>, cs: seq<ListedContainer>) {
    (forall c :: c in cs ==> Kill(c.id) in calls && RemoveContainer(c.id) in calls) &&
    (forall i, j :: 0 <= i < |calls| && 0 <= j < |calls| && calls[i].Kill? && calls[j].RemoveContainer? ==> i < j)
  }

  lemma KillsThenRemoves(cs: seq<ListedContainer>)
    ensures KillThenRemove(Kills(cs) + Removes(cs), cs)
  {
    var calls := Kills(cs) + Removes(cs);
    forall c | c in cs ensures Kill(c.id) in calls && RemoveContainer(c.id) in calls {
      var i :| 0 <= i < |cs| && cs[i] == c;
      assert calls[i] == Kill(c.id);
      assert calls[|cs| + i] == RemoveContainer(c.id);
    }
  }

  /** What a reap of the selection `cs` does after the list call: the kills;
    * then, only if every kill succeeded, the removes. */
  predicate Reaped(cs: seq<ListedContainer>, kill: string -> Outcome<Exn>, remove: string -> Outcome<Exn>,
                   o: Outcome<Exn>, calls: seq<ReapCall>)
  {
    if AllOf(cs, kill).Fail? then o == AllOf(cs, kill) && calls == Kills(cs)
    else o == AllOf(cs, remove) && calls == Kills(cs) + Removes(cs) && KillThenRemove(calls, cs)
  }

  /** The kills and, if they all succeeded, the removes of `cs`. */
  method KillThenRemoveAll(cs: seq<ListedContainer>, kill: string -> Outcome<Exn>, remove: string -> Outcome<Exn>)
    returns (o: Outcome<Exn>, calls: seq<ReapCall>)
    ensures Reaped(cs, kill, remove, o, calls)
  {
    var kills;
    o, kills := KillContainers(cs, kill);
    if o.Fail? {
      return o, kills;
    }
    var removes;
    o, removes := RemoveContainers(cs, remove);
    KillsThenRemoves(cs);
    calls := kills + removes;
  }

  /** `ReapCurrentSessionContainers`, with `listed` the daemon's reply to the
    * list call and `kill`, `remove` its replies to the other calls. */
  method ReapCurrentSessionContainers(listed: Result<seq<ListedContainer>, Exn>, entryAssemblyName: string,
                                      kill: string -> Outcome<Exn>, remove: string -> Outcome<Exn>)
    returns (o: Outcome<Exn>, calls: seq<ReapCall>)
    ensures |calls| >= 1 && calls[0] == ListContainers(ListFilter)
    ensures listed.Err? ==> o == Fail(listed.error) && calls == [ListContainers(ListFilter)]
    ensures listed.Ok? ==> Reaped(ByReaperLabels(listed.value, entryAssemblyName), kill, remove, o, calls[1..])
  {
    if listed.Err? {
      return Fail(listed.error), [ListContainers(ListFilter)];
    }
    var result := ByReaperLabels(listed.value, entryAssemblyName);
    var rest;
    o, rest := KillThenRemoveAll(result, kill, remove);
    calls := [ListContainers(ListFilter)] + rest;
    assert calls[1..] == rest;
  }

  /** `ReapPreviousSessionContainers`, with the same inputs. */
  method ReapPreviousSessionContainers(listed: Result<seq<ListedContainer>, Exn>, sessionId: string, entryAssemblyName: string,
                                       kill: string -> Outcome<Exn>, remove: string -> Outcome<Exn>)
    returns (o: Outcome<Exn>, calls: seq<ReapCall>)
    ensures |calls| >= 1 && calls[0] == ListContainers(ListFilter)
    ensures listed.Err? ==> o == Fail(listed.error) && calls == [ListContainers(ListFilter)]
    ensures listed.Ok? ==> Reaped(PreviousSession(listed.value, sessionId, entryAssemblyName), kill, remove, o, calls[1..])
  {
    if listed.Err? {
      return Fail(listed.error), [ListContainers(ListFilter)];
    }
    var result := ByReaperLabels(listed.value, entryAssemblyName);
    result := Where(result, c => FromOtherSession(sessionId, c));
    var rest;
    o, rest := KillThenRemoveAll(result, kill, remove);
    calls := [ListContainers(ListFilter)] + rest;
    assert calls[1..] == rest;
  }
}

/**
 * The `Containers.Reaper` variant's static `ResourceReaper`: `Start` creates
 * the Ryuk container once, hands it the session labels when its start has
 * finished, and only then completes the startup that every caller awaits.
 */
module ContainersReaperStart {
  import opened Outcomes
  import opened Dicts
  import opened Exceptions
  import AbstractionsReaper
  import opened Ryuk

  const TestContainerLabelName: string := "TestContainers.Containers.IContainer"
  const TestContainerSessionLabelName: string := TestContainerLabelName + ".SessionId"

  /** `Labels`: marker and session. The start-up reaper defines its own label
    * pair, separately from the abstractions reaper's, as its source file does. */
  function Labels(sessionId: string): (r: Dict<string, string>)
    ensures |r| == 2
    ensures r[0] == (TestContainerLabelName, "true") && r[1] == (TestContainerSessionLabelName, sessionId)
  {
    assert |TestContainerLabelName| != |TestContainerSessionLabelName|;
    [(TestContainerLabelName, "true"), (TestContainerSessionLabelName, sessionId)]
  }

  class ResourceReaper {
    const sessionId: string
    var ryuk: RyukContainer?            // _ryukContainer
    var completed: bool                 // _ryukStartupTaskCompletionSource is set (and has its result)
    var ryukCreations: nat

    /** Started means exactly one Ryuk container exists and the startup is complete. */
    predicate Valid()
      reads this
    {
      (ryuk != null <==> completed) && ryukCreations == (if ryuk != null then 1 else 0)
    }

    constructor(sessionId: string)
      ensures Valid() && this.sessionId == sessionId && ryuk == null
    {
      this.sessionId := sessionId;
      ryuk, completed, ryukCreations := null, false, 0;
    }

    /** `Start`, with the `REAPER_DISABLED` variable, the Ryuk image and the
      * replies its connection will give as inputs. The label hand-over runs in
      * a continuation, after the Ryuk start whatever its result, and always
      * succeeds on the new, empty death note. */
    method Start(disabledVar: Option<string>, image: string, replies: seq<string>) returns (o: Outcome<Exn>)
      requires Valid()
      modifies this
      ensures Valid() && o.Pass?
      ensures AbstractionsReaper.ReaperDisabled(disabledVar) ==>
        ryuk == old(ryuk) && completed == old(completed) && ryukCreations == old(ryukCreations)
      ensures !AbstractionsReaper.ReaperDisabled(disabledVar) && old(ryuk) != null ==> ryuk == old(ryuk)
      ensures !AbstractionsReaper.ReaperDisabled(disabledVar) && old(ryuk) == null ==>
        fresh(ryuk) && ryuk.deathNote == Labels(sessionId) && ryuk.notified == 1 &&
        ryuk.container.imageName == image && ryuk.incoming == replies
      ensures !AbstractionsReaper.ReaperDisabled(disabledVar) ==> completed
    {
      if AbstractionsReaper.ReaperDisabled(disabledVar) {
        return Pass;
      }
      if !completed {
        var r := new RyukContainer(image, replies);
        ryuk := r;
        ryukCreations := ryukCreations + 1;
        var added := r.AddAllToDeathNote(Labels(sessionId));
        assert AddAll([], Labels(sessionId)).1 by {
          AddAllSucceedsIff([], Labels(sessionId));
          assert [] + Labels(sessionId) == Labels(sessionId);
        }
        completed := true;
      }
      return Pass;
    }
  }
}
