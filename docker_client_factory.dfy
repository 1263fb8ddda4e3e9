/**
 * Choosing how to reach the Docker Engine. `DockerClientFactory2` tries the
 * client providers in descending priority and keeps the configuration of
 * the first applicable one whose test passes; `DockerClientFactory` picks
 * the endpoint from the operating system. A provider's test (a ping retried
 * until a timeout) is a parameter, and a configuration is its endpoint URI.
 */
module DockerClientFactory {
  import opened Outcomes
  import opened Exceptions

  const DefaultPriority: int := 100
  const NpipeEndpoint: string := "npipe://./pipe/docker_engine"
  const UnixEndpoint: string := "unix:///var/run/docker.sock"

  datatype ProviderKind = EnvironmentProvider | NpipeProvider | UnixProvider

  /** An `IDockerClientProvider`: its priority, whether it applies to this
    * host, and the endpoint its configuration connects to. */
  datatype Provider = Provider(kind: ProviderKind, priority: int, applicable: bool, endpoint: string)

  /** `NpipeDockerClientProvider`: the default priority, applicable on Windows only. */
  function Npipe(windows: bool): Provider {
    Provider(NpipeProvider, DefaultPriority, windows, NpipeEndpoint)
  }

  /** The providers in the order they are listed; the environment and unix
    * providers' settings are inputs. */
  function Declared(environment: Provider, windows: bool, unix: Provider): seq<Provider> {
    [environment, Npipe(windows), unix]
  }

  // ---------------------------------------------------------------------
  // OrderByDescending(p => p.GetPriority())

  predicate SortedDescending(ps: seq<Provider>) {
    forall i, j :: 0 <= i < j < |ps| ==> ps[i].priority >= ps[j].priority
  }

  /** The providers of priority `q`, in their order. */
  function WithPriority(ps: seq<Provider>, q: int): seq<Provider>
    decreases |ps|
  {
    if |ps| == 0 then []
    else WithPriority(ps[..|ps| - 1], q) + (if ps[|ps| - 1].priority == q then [ps[|ps| - 1]] else [])
  }

  /** Puts `x` after the trailing providers of `s` whose priority is lower than its own. */
  function Insert(s: seq<Provider>, x: Provider): (r: seq<Provider>)
    ensures |r| == |s| + 1
    decreases |s|
  {
    if |s| == 0 then [x]
    else if s[|s| - 1].priority >= x.priority then s + [x]
    else Insert(s[..|s| - 1], x) + [s[|s| - 1]]
  }

  /** Inserting only adds `x`. */
  lemma {:induction false} InsertPermutes(s: seq<Provider>, x: Provider)
    ensures multiset(Insert(s, x)) == multiset(s) + multiset{x}
    decreases |s|
  {
    if |s| > 0 && s[|s| - 1].priority < x.priority {
      InsertPermutes(s[..|s| - 1], x);
      assert s == s[..|s| - 1] + [s[|s| - 1]];
    }
  }

  /** Inserting brings in no provider but `x`. */
  lemma {:induction false} InsertMembers(s: seq<Provider>, x: Provider)
    ensures forall e :: e in Insert(s, x) ==> e in s || e == x
    decreases |s|
  {
    if |s| > 0 && s[|s| - 1].priority < x.priority {
      InsertMembers(s[..|s| - 1], x);
      assert forall e :: e in s[..|s| - 1] ==> e in s;
    }
  }

  /** A sorted list stays sorted with a provider of no higher priority at the end. */
  lemma SortedSnoc(s: seq<Provider>, y: Provider)
    requires SortedDescending(s)
    requires forall i :: 0 <= i < |s| ==> s[i].priority >= y.priority
    ensures SortedDescending(s + [y])
  {
    var r := s + [y];
    forall i, j | 0 <= i < j < |r| ensures r[i].priority >= r[j].priority {
      assert r[i] == s[i];
      if j < |s| {
        assert r[j] == s[j];
      }
    }
  }

  /** Inserting into a sorted list keeps it sorted. */
  lemma {:induction false} InsertSorted(s: seq<Provider>, x: Provider)
    requires SortedDescending(s)
    ensures SortedDescending(Insert(s, x))
    decreases |s|
  {
    if |s| == 0 {
    } else if s[|s| - 1].priority >= x.priority {
      SortedSnoc(s, x);
    } else {
      var init := s[..|s| - 1];
      var last := s[|s| - 1];
      assert SortedDescending(init) by {
        forall i, j | 0 <= i < j < |init| ensures init[i].priority >= init[j].priority {
          assert init[i] == s[i] && init[j] == s[j];
        }
      }
      InsertSorted(init, x);
      InsertMembers(init, x);
      var front := Insert(init, x);
      forall i | 0 <= i < |front| ensures front[i].priority >= last.priority {
        var e := front[i];
        assert e in front;
        if e != x {
          var k :| 0 <= k < |init| && init[k] == e;
          assert s[k] == e;
        }
      }
      SortedSnoc(front, last);
      assert Insert(s, x) == front + [last];
    }
  }

  /** The stable descending sort: inserts the providers one by one. */
  function SortByPriority(ps: seq<Provider>): (r: seq<Provider>)
    ensures |r| == |ps|
    decreases |ps|
  {
    if |ps| == 0 then [] else Insert(SortByPriority(ps[..|ps| - 1]), ps[|ps| - 1])
  }

  /** The sort orders by descending priority and keeps every provider. */
  lemma {:induction false} SortSortsAndPermutes(ps: seq<Provider>)
    ensures SortedDescending(SortByPriority(ps)) && multiset(SortByPriority(ps)) == multiset(ps)
    decreases |ps|
  {
    if |ps| > 0 {
      var init := ps[..|ps| - 1];
      SortSortsAndPermutes(init);
      InsertSorted(SortByPriority(init), ps[|ps| - 1]);
      InsertPermutes(SortByPriority(init), ps[|ps| - 1]);
      assert ps == init + [ps[|ps| - 1]];
    }
  }

  /** Selecting a priority from a list with one more provider at the end. */
  lemma WithPrioritySnoc(s: seq<Provider>, y: Provider, q: int)
    ensures WithPriority(s + [y], q) == WithPriority(s, q) + (if y.priority == q then [y] else [])
  {
    assert (s + [y])[..|s|] == s;
  }

  /** Inserting adds `x` behind the providers of its own priority and leaves the others alone. */
  lemma {:induction false} InsertWithPriority(s: seq<Provider>, x: Provider, q: int)
    ensures WithPriority(Insert(s, x), q) == WithPriority(s, q) + (if x.priority == q then [x] else [])
    decreases |s|
  {
    if |s| == 0 {
      WithPrioritySnoc([], x, q);
    } else if s[|s| - 1].priority >= x.priority {
      WithPrioritySnoc(s, x, q);
    } else {
      var init := s[..|s| - 1];
      var last := s[|s| - 1];
      InsertWithPriority(init, x, q);
      var front := Insert(init, x);
      assert Insert(s, x) == front + [last];
      WithPrioritySnoc(front, last, q);
      assert s == init + [last];
      WithPrioritySnoc(init, last, q);
      var l := if last.priority == q then [last] else [];
      var xs := if x.priority == q then [x] else [];
      assert l == [] || xs == [];
      assert (WithPriority(init, q) + xs) + l == (WithPriority(init, q) + l) + xs;
    }
  }

  /** The sort is stable: for each priority the providers keep their listed order. */
  lemma {:induction false} SortStable(ps: seq<Provider>, q: int)
    ensures WithPriority(SortByPriority(ps), q) == WithPriority(ps, q)
    decreases |ps|
  {
    if |ps| > 0 {
      var init := ps[..|ps| - 1];
      SortStable(init, q);
      InsertWithPriority(SortByPriority(init), ps[|ps| - 1], q);
    }
  }

  /** Providers of one priority are tried in their listed order. */
  lemma TiesKeepListedOrder(ps: seq<Provider>, q: int)
    requires forall e :: e in ps ==> e.priority == q
    ensures SortByPriority(ps) == ps
  {
    var r := SortByPriority(ps);
    SortStable(ps, q);
    SortSortsAndPermutes(ps);
    assert forall i :: 0 <= i < |ps| ==> ps[i] in ps;
    AllOfPriority(ps, q);
    assert forall i :: 0 <= i < |r| ==> r[i] in multiset(ps);
    AllOfPriority(r, q);
  }

  /** So with equal priorities the order is environment, npipe, unix. */
  lemma DeclaredTies(environment: Provider, windows: bool, unix: Provider)
    requires environment.priority == DefaultPriority && unix.priority == DefaultPriority
    ensures SortByPriority(Declared(environment, windows, unix)) == Declared(environment, windows, unix)
  {
    TiesKeepListedOrder(Declared(environment, windows, unix), DefaultPriority);
  }

  /** A list of one priority is its own selection for that priority. */
  lemma {:induction false} AllOfPriority(ps: seq<Provider>, q: int)
    requires forall i :: 0 <= i < |ps| ==> ps[i].priority == q
    ensures WithPriority(ps, q) == ps
    decreases |ps|
  {
    if |ps| > 0 {
      var init := ps[..|ps| - 1];
      var last := ps[|ps| - 1];
      assert forall i :: 0 <= i < |init| ==> init[i] == ps[i];
      AllOfPriority(init, q);
      assert WithPriority(ps, q) == init + [last];
      assert ps == init + [last];
    }
  }

  // ---------------------------------------------------------------------
  // Selection

  const NoProviders: Exn := Make(InvalidOperation, "There are no supported docker client providers!")

  predicate Works(p: Provider, test: Provider -> bool) {
    p.applicable && test(p)
  }

  /** The position of the first applicable provider whose test passes. */
  function FirstWorking(ps: seq<Provider>, test: Provider -> bool): (r: Option<nat>)
    ensures r.None? <==> forall i :: 0 <= i < |ps| ==> !Works(ps[i], test)
    ensures r.Some? ==> r.value < |ps| && Works(ps[r.value], test)
    ensures r.Some? ==> forall j :: 0 <= j < r.value ==> !Works(ps[j], test)
  {
    if |ps| == 0 then None
    else if Works(ps[0], test) then Some(0)
    else
      match FirstWorking(ps[1..], test)
      case None => None
      case Some(k) => Some(k + 1)
  }

  /** The providers that get tested among `ps`: the applicable ones, in order. */
  function Tested(ps: seq<Provider>): (r: seq<ProviderKind>)
    ensures |r| <= |ps|
    decreases |ps|
  {
    if |ps| == 0 then []
    else Tested(ps[..|ps| - 1]) + (if ps[|ps| - 1].applicable then [ps[|ps| - 1].kind] else [])
  }

  /** The configuration the selection ends with. */
  function Selection(ps: seq<Provider>, test: Provider -> bool): (r: Result<string, Exn>)
    ensures r.Err? <==> forall i :: 0 <= i < |ps| ==> !Works(ps[i], test)
    ensures r.Err? ==> r.error == NoProviders
    ensures r.Ok? ==> exists k :: 0 <= k < |ps| && Works(ps[k], test) && r.value == ps[k].endpoint &&
                                  forall j :: 0 <= j < k ==> !Works(ps[j], test)
  {
    match FirstWorking(ps, test)
    case Some(k) => Ok(ps[k].endpoint)
    case None => Err(NoProviders)
  }

  /** How far the selection goes before it returns or throws. */
  function Stop(ps: seq<Provider>, test: Provider -> bool): nat {
    match FirstWorking(ps, test)
    case Some(k) => k + 1
    case None => |ps|
  }

  /** The `foreach` over the ordered providers: skips those that do not apply,
    * returns the configuration of the first whose test passes, else throws.
    * `tested` lists the providers whose test ran. */
  method SelectProvider(ps: seq<Provider>, test: Provider -> bool) returns (r: Result<string, Exn>, tested: seq<ProviderKind>)
    ensures r == Selection(ps, test)
    ensures tested == Tested(ps[..Stop(ps, test)])
  {
    tested := [];
    for i := 0 to |ps|
      invariant forall j :: 0 <= j < i ==> !Works(ps[j], test)
      invariant tested == Tested(ps[..i])
    {
      assert ps[..i + 1][..i] == ps[..i];
      if !ps[i].applicable {
        continue;
      }
      tested := tested + [ps[i].kind];
      if test(ps[i]) {
        return Ok(ps[i].endpoint), tested;
      }
    }
    assert ps[..|ps|] == ps;
    return Err(NoProviders), tested;
  }

  /** The outcome does not depend on how the providers that are not applicable test. */
  lemma {:induction false} InapplicableNeverMatter(ps: seq<Provider>, test: Provider -> bool, other: Provider -> bool)
    requires forall p :: p in ps && p.applicable ==> test(p) == other(p)
    ensures FirstWorking(ps, test) == FirstWorking(ps, other)
    ensures Selection(ps, test) == Selection(ps, other)
  {
    if |ps| > 0 {
      assert forall p :: p in ps[1..] ==> p in ps;
      InapplicableNeverMatter(ps[1..], test, other);
      assert ps[0] in ps && Works(ps[0], test) == Works(ps[0], other);
    }
    assert FirstWorking(ps, test) == FirstWorking(ps, other);
  }

  /** `DockerClientFactory2`: the ordered providers and the lazily computed
    * configuration, kept once computed, failure included. */
  class Factory {
    const ordered: seq<Provider>              // OrderedDockerClientProviders
    var configuration: Option<Result<string, Exn>>
    var tested: seq<ProviderKind>

    constructor(declared: seq<Provider>)
      ensures ordered == SortByPriority(declared) && configuration.None? && tested == []
    {
      ordered := SortByPriority(declared);
      configuration := None;
      tested := [];
    }

    /** `Create`: the first call runs the selection; later calls reuse its
      * outcome without testing any provider again. */
    method Create(test: Provider -> bool) returns (r: Result<string, Exn>)
      modifies this`configuration, this`tested
      ensures configuration == Some(r)
      ensures old(configuration).Some? ==> r == old(configuration).value && tested == old(tested)
      ensures old(configuration).None? ==>
        r == Selection(ordered, test) && tested == old(tested) + Tested(ordered[..Stop(ordered, test)])
    {
      if configuration.Some? {
        return configuration.value;
      }
      var run;
      r, run := SelectProvider(ordered, test);
      tested := tested + run;
      configuration := Some(r);
    }
  }

  // ---------------------------------------------------------------------
  // DockerClientFactory

  datatype Platform = Windows | OSX | Linux | FreeBSD

  const UnsupportedOs: Exn := Make(InvalidOperation, "OS is not supported for testcontainers-dotnet")

  /** `BuildDockerConfigBasedOnOs`. */
  function BuildDockerConfigBasedOnOs(os: Platform): (r: Result<string, Exn>)
    ensures r == Ok(NpipeEndpoint) <==> os == Windows
    ensures r == Ok(UnixEndpoint) <==> os == OSX || os == Linux
    ensures r.Err? <==> os !in {Windows, OSX, Linux}
    ensures r.Err? ==> r.error == UnsupportedOs
  {
    if os == Windows then Ok(NpipeEndpoint)
    else if os == OSX || os == Linux then Ok(UnixEndpoint)
    else Err(UnsupportedOs)
  }

  /** The npipe provider applies exactly where the operating-system factory
    * chooses its endpoint. */
  lemma NpipeAgreesWithOs(os: Platform)
    ensures Npipe(os == Windows).applicable <==> BuildDockerConfigBasedOnOs(os) == Ok(Npipe(os == Windows).endpoint)
  {
  }
}
