/**
 * The browser's job store: one cache of the last status per job, the
 * listeners subscribed to each job, and at most one open status stream per
 * job. It outlives the components that subscribe to it.
 */
module JobStore {
  import opened Opt
  import opened StatusWire

  /** What listeners receive: the decoded form of one stream event. */
  datatype JobStatus =
    | Generating(progress: int)
    | Done(title: string, content: string, description: Option<string>)
    | Failed(error: string)
  {
    predicate IsTerminal() {
      !Generating?
    }
  }

  /**
   * Decoding one event: "done" and "error" are kept with their fields (an
   * error without a message becomes "Unknown error"); every other status,
   * "pending" included, is progress, 0 when the event has none.
   */
  function Decode(m: StatusMessage): (r: JobStatus)
    requires CarriesDocument(m)
    ensures r.IsTerminal() <==> IsTerminalMessage(m)
    ensures r.Done? <==> m.status == "done"
    ensures r.Done? ==> r.title == m.title.value && r.content == m.content.value && r.description == m.description
    ensures r.Failed? ==> r.error == m.error.GetOr("Unknown error")
    ensures r.Generating? ==> r.progress == m.progress.GetOr(0)
  {
    if m.status == "done" then
      Done(m.title.value, m.content.value, m.description)
    else if m.status == "error" then
      Failed(m.error.GetOr("Unknown error"))
    else
      Generating(m.progress.GetOr(0))
  }

  /** The status every listener gets when the stream itself fails. */
  const ConnectionLost: JobStatus := Failed("Connection lost")

  /** A listener, identified as the function object the `Set` holds. */
  type ListenerId = nat

  /** One invocation of a listener with a status. */
  datatype Call = Call(listener: ListenerId, status: JobStatus)

  /** No listener occurs twice: the `Set` the store keeps per job. */
  predicate NoDuplicates(s: seq<ListenerId>) {
    forall i, j :: 0 <= i < j < |s| ==> s[i] != s[j]
  }

  /** `Set.add`: a new element goes last, an existing one stays where it is. */
  function Add(s: seq<ListenerId>, x: ListenerId): (r: seq<ListenerId>)
    ensures x in s ==> r == s
    ensures x !in s ==> r == s + [x]
  {
    if x in s then s else s + [x]
  }

  /** `Set.delete`: the element is gone, the others keep their order. */
  function Remove(s: seq<ListenerId>, x: ListenerId): (r: seq<ListenerId>)
    ensures forall y :: y in r <==> y in s && y != x
    ensures |r| <= |s|
    decreases |s|
  {
    if s == [] then []
    else
      assert s == [s[0]] + s[1..];
      if s[0] == x then Remove(s[1..], x)
      else [s[0]] + Remove(s[1..], x)
  }

  /** Removing from a duplicate-free sequence removes exactly one element, or none. */
  lemma {:induction false} RemoveFromSet(s: seq<ListenerId>, x: ListenerId)
    requires NoDuplicates(s)
    ensures NoDuplicates(Remove(s, x))
    ensures x in s ==> |Remove(s, x)| == |s| - 1
    ensures x !in s ==> Remove(s, x) == s
  {
    if s != [] {
      assert NoDuplicates(s[1..]) by {
        forall i, j | 0 <= i < j < |s[1..]| ensures s[1..][i] != s[1..][j] {
          assert s[1..][i] == s[i + 1] && s[1..][j] == s[j + 1];
        }
      }
      RemoveFromSet(s[1..], x);
      if s[0] == x {
        assert x !in s[1..] by {
          forall k | 0 <= k < |s[1..]| ensures s[1..][k] != x {
            assert s[1..][k] == s[k + 1];
          }
        }
      } else {
        var r := Remove(s[1..], x);
        assert s[0] !in s[1..] by {
          forall k | 0 <= k < |s[1..]| ensures s[1..][k] != s[0] {
            assert s[1..][k] == s[k + 1];
          }
        }
        assert s[0] !in r;
        assert NoDuplicates([s[0]] + r) by {
          forall i, j | 0 <= i < j < |[s[0]] + r| ensures ([s[0]] + r)[i] != ([s[0]] + r)[j] {
            if i == 0 {
              assert ([s[0]] + r)[j] == r[j - 1];
              assert r[j - 1] in r;
            } else {
              assert ([s[0]] + r)[i] == r[i - 1] && ([s[0]] + r)[j] == r[j - 1];
            }
          }
        }
        if x !in s {
          assert s == [s[0]] + s[1..];
        }
      }
    }
  }

  lemma AddToSet(s: seq<ListenerId>, x: ListenerId)
    requires NoDuplicates(s)
    ensures NoDuplicates(Add(s, x))
    ensures forall y :: y in Add(s, x) <==> y in s || y == x
  {
  }

  /**
   * Calls each listener of `fns` once with `status`, in the `Set`'s
   * insertion order.
   */
  method Broadcast(fns: seq<ListenerId>, status: JobStatus) returns (calls: seq<Call>)
    ensures |calls| == |fns|
    ensures forall i :: 0 <= i < |fns| ==> calls[i] == Call(fns[i], status)
  {
    calls := [];
    var i := 0;
    while i < |fns|
      invariant 0 <= i <= |fns|
      invariant |calls| == i
      invariant forall k :: 0 <= k < i ==> calls[k] == Call(fns[k], status)
    {
      calls := calls + [Call(fns[i], status)];
      i := i + 1;
    }
  }

  const StatusPath: string := "/api/document-status?jobId="

  /** The URL a job's stream is opened on; the id is not encoded, so it can be read back. */
  function StreamUrl(jobId: string): (r: string)
    ensures |r| >= |StatusPath| && r[..|StatusPath|] == StatusPath && r[|StatusPath|..] == jobId
  {
    StatusPath + jobId
  }

  class Store {
    /** The last status seen per job. */
    var jobs: map<string, JobStatus>
    /** The listeners per job; an entry, once made, is never removed. */
    var listeners: map<string, seq<ListenerId>>
    /** The jobs whose stream is open. */
    var connections: set<string>
    /** Every stream URL opened, in order. */
    var streams: seq<string>

    ghost predicate Valid()
      reads this
    {
      forall id :: id in listeners ==> NoDuplicates(listeners[id])
    }

    constructor ()
      ensures Valid()
      ensures jobs == map[] && listeners == map[] && connections == {} && streams == []
    {
      jobs := map[];
      listeners := map[];
      connections := {};
      streams := [];
    }

    function ListenersOf(jobId: string): (r: seq<ListenerId>)
      reads this
      ensures jobId !in listeners ==> r == []
      ensures jobId in listeners ==> r == listeners[jobId]
    {
      if jobId in listeners then listeners[jobId] else []
    }

    /** `getStatus`: the cached status, or none. */
    function GetStatus(jobId: string): (r: Option<JobStatus>)
      reads this
      ensures r.Some? <==> jobId in jobs
      ensures r.Some? ==> r.value == jobs[jobId]
    {
      if jobId in jobs then Some(jobs[jobId]) else None
    }

    /**
     * `subscribe`: the listener joins the job's set and, if a status is
     * cached, is called with it at once (the only call made).
     */
    method Subscribe(jobId: string, listener: ListenerId) returns (calls: seq<Call>)
      requires Valid()
      modifies this`listeners
      ensures Valid()
      ensures listeners == old(listeners)[jobId := Add(old(ListenersOf(jobId)), listener)]
      ensures jobId in jobs ==> calls == [Call(listener, jobs[jobId])]
      ensures jobId !in jobs ==> calls == []
    {
      if jobId !in listeners {
        listeners := listeners[jobId := []];
      }
      AddToSet(listeners[jobId], listener);
      listeners := listeners[jobId := Add(listeners[jobId], listener)];
      var current := GetStatus(jobId);
      calls := if current.Some? then [Call(listener, current.value)] else [];
    }

    /**
     * The function `subscribe` returns: removes exactly this listener from
     * this job's set; nothing happens if the job has no set.
     */
    method Unsubscribe(jobId: string, listener: ListenerId)
      requires Valid()
      modifies this`listeners
      ensures Valid()
      ensures jobId !in old(listeners) ==> listeners == old(listeners)
      ensures jobId in old(listeners) ==> listeners == old(listeners)[jobId := Remove(old(listeners[jobId]), listener)]
    {
      if jobId in listeners {
        RemoveFromSet(listeners[jobId], listener);
        listeners := listeners[jobId := Remove(listeners[jobId], listener)];
      }
    }

    /** `watch`: opens a stream for the job unless one is already open. */
    method Watch(jobId: string)
      modifies this`connections, this`streams
      ensures old(jobId in connections) ==> unchanged(this)
      ensures old(jobId !in connections) ==>
                connections == old(connections) + {jobId} && streams == old(streams) + [StreamUrl(jobId)]
    {
      if jobId in connections {
        return;
      }
      streams := streams + [StreamUrl(jobId)];
      connections := connections + {jobId};
    }

    /**
     * The stream's message handler: the decoded status is cached, then
     * given to the job's listeners; a terminal status closes the stream. A
     * closed stream delivers nothing.
     */
    method OnMessage(jobId: string, m: StatusMessage) returns (calls: seq<Call>)
      requires CarriesDocument(m)
      modifies this`jobs, this`connections
      ensures jobId !in old(connections) ==> unchanged(this) && calls == []
      ensures jobId in old(connections) ==>
                && jobs == old(jobs)[jobId := Decode(m)]
                && connections == (if IsTerminalMessage(m) then old(connections) - {jobId} else old(connections))
                && |calls| == |ListenersOf(jobId)|
                && forall i :: 0 <= i < |calls| ==> calls[i] == Call(ListenersOf(jobId)[i], Decode(m))
    {
      if jobId !in connections {
        return [];
      }
      var status := Decode(m);
      if status.IsTerminal() {
        connections := connections - {jobId};
      }
      jobs := jobs[jobId := status];
      calls := Broadcast(ListenersOf(jobId), status);
    }

    /**
     * The stream's error handler: "Connection lost" is cached and given to
     * the job's listeners, and the stream is closed.
     */
    method OnError(jobId: string) returns (calls: seq<Call>)
      modifies this`jobs, this`connections
      ensures jobId !in old(connections) ==> unchanged(this) && calls == []
      ensures jobId in old(connections) ==>
                && jobs == old(jobs)[jobId := ConnectionLost]
                && connections == old(connections) - {jobId}
                && |calls| == |ListenersOf(jobId)|
                && forall i :: 0 <= i < |calls| ==> calls[i] == Call(ListenersOf(jobId)[i], ConnectionLost)
    {
      if jobId !in connections {
        return [];
      }
      jobs := jobs[jobId := ConnectionLost];
      calls := Broadcast(ListenersOf(jobId), ConnectionLost);
      connections := connections - {jobId};
    }
  }
}
