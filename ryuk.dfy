/**
 * `RyukContainer`: the companion container that removes this session's
 * resources once the test process goes away. It keeps a "death note" of label
 * filters, sends the pending ones as `label=k=v&label=k=v...`, reads reply
 * lines until an `ACK`, and then forgets the filters it sent.
 */
module Ryuk {
  import opened Outcomes
  import opened Text
  import opened Dicts
  import opened Exceptions
  import opened ContainerModel
  import opened Containers

  const RyukAck: string := "ACK"
  const RyukPort: int := 8080

  /** `RyukAck.Equals(line, StringComparison.InvariantCultureIgnoreCase)`. */
  predicate IsAck(line: string) {
    EqualsIgnoreCase(RyukAck, line)
  }

  // ---------------------------------------------------------------------
  // The payload

  /** `$"label={note.Key}={note.Value}"`. */
  function Piece(entry: (string, string)): string {
    "label=" + entry.0 + "=" + entry.1
  }

  function Pieces(note: seq<(string, string)>): (r: seq<string>)
    ensures |r| == |note| && forall i :: 0 <= i < |note| ==> r[i] == Piece(note[i])
  {
    seq(|note|, i requires 0 <= i < |note| => Piece(note[i]))
  }

  /** The accumulation of `Aggregate((current, next) => current + "&" + next)`. */
  function Fold(current: string, rest: seq<string>): string
    decreases |rest|
  {
    if |rest| == 0 then current else Fold(current + "&" + rest[0], rest[1..])
  }

  /** `Aggregate` without a seed: the empty sequence throws. */
  function Aggregate(pieces: seq<string>): Result<string, Exn> {
    if |pieces| == 0 then Err(NoElements) else Ok(Fold(pieces[0], pieces[1..]))
  }

  /** The bytes `SendToRyuk` writes, before UTF-8 encoding. */
  function Payload(note: seq<(string, string)>): Result<string, Exn> {
    Aggregate(Pieces(note))
  }

  lemma JoinShift(a: string, b: string, rest: seq<string>)
    ensures Join([a + "&" + b] + rest, "&") == a + "&" + Join([b] + rest, "&")
  {
    if |rest| > 0 {
      assert ([a + "&" + b] + rest)[1..] == rest;
      assert ([b] + rest)[1..] == rest;
    }
  }

  lemma {:induction false} FoldIsJoin(current: string, rest: seq<string>)
    ensures Fold(current, rest) == Join([current] + rest, "&")
    decreases |rest|
  {
    if |rest| > 0 {
      FoldIsJoin(current + "&" + rest[0], rest[1..]);
      JoinShift(current, rest[0], rest[1..]);
      assert [rest[0]] + rest[1..] == rest;
      assert ([current] + rest)[1..] == rest;
    }
  }

  /** The payload fails exactly for an empty death note; otherwise it is one
    * `label=k=v` piece per entry, in order, joined by `&` with nothing after the last. */
  lemma PayloadShape(note: seq<(string, string)>)
    ensures Payload(note).Err? <==> |note| == 0
    ensures Payload(note).Err? ==> Payload(note).error == NoElements
    ensures Payload(note).Ok? ==> Payload(note).value == Join(Pieces(note), "&")
  {
    var p := Pieces(note);
    if |p| > 0 {
      FoldIsJoin(p[0], p[1..]);
      assert [p[0]] + p[1..] == p;
    }
  }

  /** When no key or value holds an `&`, splitting the payload on `&` yields
    * the pieces back: each pending entry is sent exactly once, in order. */
  lemma PayloadSplits(note: seq<(string, string)>)
    requires |note| > 0
    requires forall i :: 0 <= i < |note| ==> '&' !in note[i].0 && '&' !in note[i].1
    ensures SplitOn(Payload(note).value, '&') == Pieces(note)
  {
    PayloadShape(note);
    forall i | 0 <= i < |note| ensures '&' !in Pieces(note)[i] {
      assert Pieces(note)[i] == "label=" + note[i].0 + "=" + note[i].1;
    }
    SplitJoin(Pieces(note), '&');
  }

  // ---------------------------------------------------------------------
  // Reading the reply

  /** The `ReadLineAsync` loop: `n` lines are read, stopping after the first
    * `ACK` or at the end of the stream; every line before it is skipped. */
  method ReadUntilAck(lines: seq<string>) returns (n: nat, acked: bool)
    ensures n <= |lines|
    ensures acked <==> exists j :: 0 <= j < |lines| && IsAck(lines[j])
    ensures acked ==> n > 0 && IsAck(lines[n - 1]) && forall j :: 0 <= j < n - 1 ==> !IsAck(lines[j])
    ensures !acked ==> n == |lines|
  {
    n := 0;
    while n < |lines| && !IsAck(lines[n])
      invariant n <= |lines|
      invariant forall j :: 0 <= j < n ==> !IsAck(lines[j])
    {
      n := n + 1;
    }
    if n < |lines| {
      return n + 1, true;
    }
    return n, false;
  }

  /** Removing the sent keys leaves exactly the entries added after the snapshot. */
  lemma RemoveSnapshotKeys(snapshot: seq<(string, string)>, later: seq<(string, string)>)
    requires DistinctKeys(snapshot + later)
    ensures RemoveKeys(snapshot + later, KeySet(snapshot)) == later
  {
    var ks := KeySet(snapshot);
    RemoveKeysAppend(snapshot, later, ks);
    RemoveAllOwnKeys(snapshot, ks);
    forall i | 0 <= i < |later| ensures later[i].0 !in ks {
      forall j | 0 <= j < |snapshot| ensures Keys(snapshot)[j] != later[i].0 {
        assert (snapshot + later)[j] == snapshot[j];
        assert (snapshot + later)[|snapshot| + i] == later[i];
      }
    }
    RemoveKeysAbsent(later, ks);
  }

  lemma {:induction false} RemoveKeysAppend(a: seq<(string, string)>, b: seq<(string, string)>, ks: set<string>)
    ensures RemoveKeys(a + b, ks) == RemoveKeys(a, ks) + RemoveKeys(b, ks)
  {
    if |a| > 0 {
      assert (a + b)[1..] == a[1..] + b;
      RemoveKeysAppend(a[1..], b, ks);
    } else {
      assert a + b == b;
    }
  }

  lemma {:induction false} RemoveAllOwnKeys(a: seq<(string, string)>, ks: set<string>)
    requires forall i :: 0 <= i < |a| ==> a[i].0 in ks
    ensures RemoveKeys(a, ks) == []
  {
    if |a| > 0 {
      RemoveAllOwnKeys(a[1..], ks);
    }
  }

  lemma {:induction false} RemoveKeysAbsent(a: seq<(string, string)>, ks: set<string>)
    requires forall i :: 0 <= i < |a| ==> a[i].0 !in ks
    ensures RemoveKeys(a, ks) == a
  {
    if |a| > 0 {
      RemoveKeysAbsent(a[1..], ks);
      assert [a[0]] + a[1..] == a;
    }
  }

  // ---------------------------------------------------------------------
  // The death note

  class RyukContainer {
    const container: Container
    var deathNote: Dict<string, string>
    var notified: nat                                  // calls of _sendToRyukWorker.Notify()
    var written: seq<string>                           // payloads written to the TCP stream
    var incoming: seq<string>                          // reply lines not read yet
    var inFlight: Option<Dict<string, string>>          // the snapshot of a send awaiting its reply

    /** A Ryuk container for `image`, whose TCP peer will answer with the lines `replies`. */
    constructor(image: string, replies: seq<string>)
      ensures fresh(container) && container.kind == Ryuk && container.imageName == image
      ensures container.containerId.None? && container.phases == [] && container.calls == []
      ensures deathNote == [] && notified == 0 && written == [] && incoming == replies && inFlight.None?
    {
      container := new Container(Ryuk, image, DatabaseContext(None, None, None));
      deathNote, notified, written, incoming, inFlight := [], 0, [], replies, None;
    }

    /** `AddToDeathNote(label, value)`, with the label name as `key`: a key already pending throws and the
      * worker is not notified. */
    method AddToDeathNote(key: string, value: string) returns (o: Outcome<Exn>)
      modifies this`deathNote, this`notified
      ensures o.Fail? <==> key in Keys(old(deathNote))
      ensures o.Fail? ==> o.error == DuplicateKey(key) && deathNote == old(deathNote) && notified == old(notified)
      ensures o.Pass? ==> deathNote == old(deathNote) + [(key, value)] && notified == old(notified) + 1
    {
      match Add(deathNote, key, value)
      case None =>
        return Fail(DuplicateKey(key));
      case Some(d) =>
        deathNote := d;
        notified := notified + 1;
        return Pass;
    }

    /** `AddToDeathNote(dictionary)`: the entries are added one by one; a key
      * already pending throws, keeping the entries added before it, and only a
      * call that adds them all notifies the worker. */
    method AddAllToDeathNote(labels: Dict<string, string>) returns (o: Outcome<Exn>)
      modifies this`deathNote, this`notified
      ensures (deathNote, o.Pass?) == AddAll(old(deathNote), labels)
      ensures o.Fail? ==> o.error == DuplicateKey(labels[|deathNote| - |old(deathNote)|].0)
      ensures notified == old(notified) + (if o.Pass? then 1 else 0)
    {
      var before := deathNote;
      var note, ok := AddEach(before, labels);
      deathNote := note;
      if !ok {
        return Fail(DuplicateKey(labels[|note| - |before|].0));
      }
      notified := notified + 1;
      return Pass;
    }

    /** The first half of `SendToRyuk`: snapshot the death note and write its
      * payload. An empty death note throws before anything is written. */
    method BeginSend() returns (o: Outcome<Exn>)
      modifies this`written, this`inFlight
      ensures Payload(deathNote).Err? ==>
        o == Fail(NoElements) && written == old(written) && inFlight == old(inFlight)
      ensures Payload(deathNote).Ok? ==>
        o.Pass? && written == old(written) + [Payload(deathNote).value] && inFlight == Some(deathNote)
    {
      PayloadShape(deathNote);
      var payload := Payload(deathNote);
      if payload.Err? {
        return Fail(payload.error);
      }
      written := written + [payload.value];
      inFlight := Some(deathNote);
      return Pass;
    }

    /** The second half of `SendToRyuk`: read reply lines until an `ACK` or the
      * end of the stream, then remove every key of the snapshot, acknowledged
      * or not. Entries added since the snapshot stay pending. */
    method AwaitAck() returns (acked: bool)
      modifies this`deathNote, this`incoming, this`inFlight
      ensures acked <==> exists j :: 0 <= j < |old(incoming)| && IsAck(old(incoming)[j])
      ensures |incoming| <= |old(incoming)| && incoming == old(incoming)[|old(incoming)| - |incoming|..]
      ensures !acked ==> incoming == []
      ensures deathNote == RemoveKeys(old(deathNote), KeySet(if old(inFlight).Some? then old(inFlight).value else []))
      ensures inFlight.None?
    {
      var n;
      n, acked := ReadUntilAck(incoming);
      incoming := incoming[n..];
      var sent := if inFlight.Some? then inFlight.value else [];
      RemoveKeysDistinct(deathNote, KeySet(sent));
      deathNote := RemoveKeys(deathNote, KeySet(sent));
      inFlight := None;
    }
  }

  // ---------------------------------------------------------------------
  // The container hooks

  /** `ConfigureAsync`: expose and wait on 8080, bind the Docker endpoint path
    * read-only onto itself, and remove the container when it stops. */
  method Configure(c: Container, env: HostEnv)
    modifies c`waitStrategy, c`exposedPorts, c`bindMounts, c`autoRemove
    ensures c.waitStrategy == ExposedPortsWait([RyukPort])
    ensures c.exposedPorts == old(c.exposedPorts) + [RyukPort]
    ensures c.bindMounts == old(c.bindMounts) + [Bind(env.endpoint.absolutePath, env.endpoint.absolutePath, ReadOnly)]
    ensures c.autoRemove
  {
    c.waitStrategy := ExposedPortsWait([RyukPort]);
    c.exposedPorts := c.exposedPorts + [RyukPort];
    c.bindMounts := c.bindMounts + [Bind(env.endpoint.absolutePath, env.endpoint.absolutePath, ReadOnly)];
    c.autoRemove := true;
  }

  /** `ServiceStarted`: open the persistent connection to the mapped 8080 port;
    * `connects` says whether the connection opens. */
  method ServiceStarted(c: Container, env: HostEnv, connects: bool) returns (o: Outcome<Exn>)
    modifies c`tcpConnection
    ensures var host := GetDockerHostIpAddress(env, old(c.containerInfo));
            host.Err? ==> o == Fail(host.error) && c.tcpConnection == old(c.tcpConnection)
    ensures var host := GetDockerHostIpAddress(env, old(c.containerInfo));
            var port := GetMappedPort(old(c.containerInfo), RyukPort);
            host.Ok? && port.Err? ==> o == Fail(port.error) && c.tcpConnection == old(c.tcpConnection)
    ensures var host := GetDockerHostIpAddress(env, old(c.containerInfo));
            var port := GetMappedPort(old(c.containerInfo), RyukPort);
            host.Ok? && port.Ok? ==>
              o == (if connects then Pass else Fail(ConnectionRefused)) &&
              c.tcpConnection == (if connects then Some((host.value, port.value)) else old(c.tcpConnection))
  {
    var host := GetDockerHostIpAddress(env, c.containerInfo);
    if host.Err? {
      return Fail(host.error);
    }
    var port := GetMappedPort(c.containerInfo, RyukPort);
    if port.Err? {
      return Fail(port.error);
    }
    if !connects {
      return Fail(ConnectionRefused);
    }
    c.tcpConnection := Some((host.value, port.value));
    return Pass;
  }

  /** `ContainerStopping`: dispose of the connection. */
  method ContainerStopping(c: Container)
    modifies c`tcpConnection
    ensures c.tcpConnection.None?
  {
    c.tcpConnection := None;
  }
}
