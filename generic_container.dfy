/**
 * `GenericContainer`: the default image, the session labels it adds while
 * configuring, and the reaper start in its starting hook.
 */
module GenericContainer {
  import opened Outcomes
  import opened Dicts
  import opened Exceptions
  import opened Containers
  import AbstractionsReaper

  const DefaultImage: string := "alpine"
  const DefaultTag: string := "3.5"

  /** An `IImage` handed to a constructor: the `NullImage` instance or an image with a name. */
  datatype Image = NullImageInstance | NamedImage(imageName: string)

  /** How a container constructor was called: without an image, with an image
    * name, or with an `IImage` (`None` is `null`). */
  datatype ImageArgument = NoImageArgument | ImageNameArgument(name: string) | ImageObjectArgument(image: Option<Image>)

  /** `NullImage.IsNullImage`. */
  predicate IsNullImage(image: Option<Image>) {
    image.None? || image.value.NullImageInstance?
  }

  /** `DockerImageName` after construction, for a class whose default image is `defaultName`. */
  function DockerImageName(arg: ImageArgument, defaultName: string): (r: string)
    ensures arg.NoImageArgument? ==> r == defaultName
    ensures arg.ImageNameArgument? ==> r == arg.name
    ensures arg.ImageObjectArgument? && IsNullImage(arg.image) ==> r == defaultName
    ensures arg.ImageObjectArgument? && !IsNullImage(arg.image) ==> r == arg.image.value.imageName
  {
    match arg
    case NoImageArgument => defaultName
    case ImageNameArgument(name) => name
    case ImageObjectArgument(image) => if IsNullImage(image) then defaultName else image.value.imageName
  }

  /** The three constructors of `GenericContainer`. */
  method NewGenericContainer(arg: ImageArgument) returns (c: Container)
    ensures fresh(c) && c.kind == Generic && c.imageName == DockerImageName(arg, DefaultImage + ":" + DefaultTag)
    ensures c.containerId.None? && c.labels == [] && c.env == [] && c.waitStrategy == NoWait
  {
    c := new Container(Generic, DockerImageName(arg, DefaultImage + ":" + DefaultTag), DatabaseContext(None, None, None));
  }

  /** Without an image, or with a null image, the container runs `alpine:3.5`. */
  lemma DefaultImageIsAlpine(image: Option<Image>)
    requires IsNullImage(image)
    ensures DockerImageName(NoImageArgument, DefaultImage + ":" + DefaultTag) == "alpine:3.5"
    ensures DockerImageName(ImageObjectArgument(image), DefaultImage + ":" + DefaultTag) == "alpine:3.5"
  {
  }

  /** The `foreach` of `ConfigureAsync`: `Labels.Add` for each entry, in order,
    * until one throws. */
  method AddLabels(c: Container, entries: Dict<string, string>) returns (o: Outcome<Exn>)
    modifies c`labels
    ensures (c.labels, o.Pass?) == AddAll(old(c.labels), entries)
    ensures o.Fail? ==> o.error == DuplicateKey(entries[|c.labels| - |old(c.labels)|].0)
  {
    var before := c.labels;
    var labels, ok := AddEach(before, entries);
    c.labels := labels;
    o := if ok then Pass else Fail(DuplicateKey(entries[|labels| - |before|].0));
  }

  /** `ConfigureAsync`: the base configuration does nothing; the reaper labels
    * are added to `Labels`, and a label already present throws, keeping those
    * added before it. */
  method Configure(c: Container, sessionId: string) returns (o: Outcome<Exn>)
    modifies c`labels
    ensures (c.labels, o.Pass?) == AddAll(old(c.labels), AbstractionsReaper.Labels(sessionId))
    ensures o.Fail? ==> o.error == DuplicateKey(AbstractionsReaper.Labels(sessionId)[|c.labels| - |old(c.labels)|].0)
  {
    o := AddLabels(c, AbstractionsReaper.Labels(sessionId));
  }

  /** Configuring succeeds exactly when neither reaper label name is set already. */
  lemma ConfigureSucceedsIff(pre: Dict<string, string>, sessionId: string)
    ensures AddAll(pre, AbstractionsReaper.Labels(sessionId)).1 <==>
      AbstractionsReaper.TestContainerLabelName !in Keys(pre) &&
      AbstractionsReaper.TestContainerSessionLabelName !in Keys(pre)
  {
    var l := AbstractionsReaper.Labels(sessionId);
    AddAllSucceedsIff(pre, l);
    var all := pre + l;
    assert all[|pre|] == l[0] && all[|pre| + 1] == l[1];
    if AbstractionsReaper.TestContainerLabelName in Keys(pre) {
      var i :| 0 <= i < |pre| && Keys(pre)[i] == AbstractionsReaper.TestContainerLabelName;
      assert all[i].0 == all[|pre|].0;
    } else if AbstractionsReaper.TestContainerSessionLabelName in Keys(pre) {
      var i :| 0 <= i < |pre| && Keys(pre)[i] == AbstractionsReaper.TestContainerSessionLabelName;
      assert all[i].0 == all[|pre| + 1].0;
    } else {
      forall i, j | 0 <= i < j < |all| ensures all[i].0 != all[j].0 {
        if j >= |pre| && i < |pre| {
          assert all[i].0 == Keys(pre)[i];
        } else if i < |pre| {
          assert all[i] == pre[i] && all[j] == pre[j];
        }
      }
    }
  }

  /** After a configure that succeeds, the labels set before are kept in front
    * and every added label reads back its value (`l` is the reaper labels). */
  lemma AddAllReadsBack(pre: Dict<string, string>, l: seq<(string, string)>, i: nat)
    requires AddAll(pre, l).1 && i < |l|
    ensures AddAll(pre, l).0[..|pre|] == pre
    ensures Get(AddAll(pre, l).0, l[i].0) == Some(l[i].1)
  {
    AddAllCompletePrefix(pre, l);
    var post := AddAll(pre, l).0;
    assert post[|pre| + i] == l[..|l|][i] == l[i];
    assert l[i] in post;
  }

  /** A second configure of the same container throws on the marker label. */
  lemma ConfigureTwiceFails(pre: Dict<string, string>, sessionId: string)
    requires AddAll(pre, AbstractionsReaper.Labels(sessionId)).1
    ensures !AddAll(AddAll(pre, AbstractionsReaper.Labels(sessionId)).0, AbstractionsReaper.Labels(sessionId)).1
  {
    var l := AbstractionsReaper.Labels(sessionId);
    var post := AddAll(pre, l).0;
    AddAllReadsBack(pre, l, 0);
    assert l[0].0 in Keys(post);
    ConfigureSucceedsIff(post, sessionId);
  }

  /** `ContainerStarting`: the base hook does nothing, then the reaper is started;
    * the reaper's new state is the one `ResourceReaper.StartAsync` promises. */
  method ContainerStarting(reaper: AbstractionsReaper.ResourceReaper, disabledVar: Option<string>, imageVar: Option<string>)
    returns (o: Outcome<Exn>)
    requires reaper.Valid()
    modifies reaper
    ensures reaper.Valid() && o.Pass?
    ensures !AbstractionsReaper.ReaperDisabled(disabledVar) ==> reaper.completed && reaper.hookRegistered && reaper.ryukCreations == 1
    ensures AbstractionsReaper.ReaperDisabled(disabledVar) ==>
      reaper.ryukCreations == old(reaper.ryukCreations) && reaper.hookRegistered == old(reaper.hookRegistered) &&
      reaper.ryukImage == old(reaper.ryukImage) && reaper.filters == old(reaper.filters)
    ensures !AbstractionsReaper.ReaperDisabled(disabledVar) ==>
      reaper.ryukImage == (if old(reaper.initialised) then old(reaper.ryukImage) else Some(AbstractionsReaper.ReaperImage(imageVar))) &&
      reaper.filters == old(reaper.filters) +
        (if old(reaper.initialised) then [] else [AbstractionsReaper.LabelsFilter(AbstractionsReaper.Labels(reaper.sessionId))])
    ensures reaper.imagesToDelete == old(reaper.imagesToDelete)
  {
    o := reaper.StartAsync(disabledVar, imageVar);
  }
}

/**
 * `AdoNetContainer`: after the generic configuration it waits with the SQL
 * probe, which retries socket and database errors; its connection string is
 * available once the container has started.
 */
module AdoNet {
  import opened Outcomes
  import opened Exceptions
  import opened Containers
  import GenericContainer
  import AbstractionsReaper
  import Probing

  /** `AdoNetSqlProbeStrategy.ExceptionTypes`. */
  const ProbeExceptionTypes: seq<ExnType> := [Socket, Db]

  /** `ConfigureAsync`: the generic configuration, then the SQL probe as wait strategy. */
  method Configure(c: Container, sessionId: string) returns (o: Outcome<Exn>)
    modifies c`labels, c`waitStrategy
    ensures (c.labels, o.Pass?) == Dicts.AddAll(old(c.labels), AbstractionsReaper.Labels(sessionId))
    ensures c.waitStrategy == (if o.Pass? then ProbingWait(ProbeExceptionTypes) else old(c.waitStrategy))
  {
    o := GenericContainer.Configure(c, sessionId);
    if o.Pass? {
      c.waitStrategy := ProbingWait(ProbeExceptionTypes);
    }
  }

  /** What the `ConfigureAsync` of a database class that exposes `port` and
    * sets the variables `entries` leaves in `c`, given the settings before it:
    * the reaper labels added; after a duplicate label nothing else changed;
    * otherwise the SQL probe, the port appended and the variables added one
    * by one, stopping at the first that is already set. */
  predicate ConfiguredWith(c: Container, sessionId: string, port: int, entries: seq<(string, string)>,
                           labels0: Dicts.Dict<string, string>, wait0: WaitStrategy, ports0: seq<int>,
                           env0: Dicts.Dict<string, string>, o: Outcome<Exn>)
    reads c`labels, c`waitStrategy, c`exposedPorts, c`env
  {
    var labels := Dicts.AddAll(labels0, AbstractionsReaper.Labels(sessionId));
    && c.labels == labels.0
    && (!labels.1 ==> o.Fail? && c.waitStrategy == wait0 && c.exposedPorts == ports0 && c.env == env0)
    && (labels.1 ==>
          c.waitStrategy == ProbingWait(ProbeExceptionTypes) && c.exposedPorts == ports0 + [port] &&
          (c.env, o.Pass?) == Dicts.AddAll(env0, entries))
  }

  /** Outside an aggregate, the SQL probe is retried exactly on socket and
    * database errors, subclasses included. */
  lemma ProbeRetries(e: Exn)
    requires !IsA(e.typ, Aggregate)
    ensures Probing.ShouldRetry(ProbeExceptionTypes, e) <==> IsA(e.typ, Socket) || IsA(e.typ, Db)
  {
    if IsA(e.typ, Socket) {
      assert Socket in ProbeExceptionTypes && IsInstanceOf(e, Socket);
    }
    if IsA(e.typ, Db) {
      assert Db in ProbeExceptionTypes && IsInstanceOf(e, Db);
    }
  }

  const NotReadyMessage: string := "Container must be started before the connection string is ready"

  /** `GetConnectionString` of the database containers: the string built in
    * `ContainerStarted`, or an `InvalidOperationException` before that. */
  function GetConnectionString(c: Container): (r: Result<ConnectionSettings, Exn>)
    reads c
    ensures r.Err? <==> c.connectionSettings.None?
    ensures r.Err? ==> r.error == Make(InvalidOperation, NotReadyMessage)
    ensures r.Ok? ==> r.value == c.connectionSettings.value
  {
    if c.connectionSettings.None? then Err(Make(InvalidOperation, NotReadyMessage)) else Ok(c.connectionSettings.value)
  }
}
