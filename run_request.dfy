/**
 * Composing one `PanelData` from the response packets of a query run
 * (`processResponsePacket`), and the early answer of `runRequest` for a
 * request without queries.
 *
 * The stored packets are an object keyed by packet key; it is a sequence of
 * entries in the order `for…in` visits them.
 */
module RunRequest {
  import opened Wrappers

  datatype LoadingState = NotStarted | Loading | Streaming | Done | Error

  datatype QueryError = QueryError(message: string)

  /** A data frame of a response; `frame` tells frames apart. */
  datatype DataFrame = DataFrame(refId: Option<string>, frame: nat)

  /** `DataQueryResponse`; `data` is None when the packet has no `data`. */
  datatype Packet = Packet(key: Option<string>, data: Option<seq<DataFrame>>, state: Option<LoadingState>,
                           error: Option<QueryError>)

  datatype Request = Request(requestId: string, targets: seq<string>, endTime: Option<int>)

  /** `PanelData`; `series` is None where the object has `data: undefined` instead. */
  datatype PanelData = PanelData(state: LoadingState, series: Option<seq<DataFrame>>, error: Option<QueryError>,
                                 request: Request)

  datatype PacketEntry = PacketEntry(key: string, packet: Packet)

  datatype RunningQueryState = RunningQueryState(packets: seq<PacketEntry>, panelData: PanelData)

  // ---------------------------------------------------------------------
  // The packet map
  // ---------------------------------------------------------------------

  /** `packet.key ?? packet.data?.[0]?.refId ?? 'A'`. */
  function PacketKey(p: Packet): (k: string)
    ensures p.key.Some? ==> k == p.key.value
    ensures p.key.None? && (p.data.None? || |p.data.value| == 0) ==> k == "A"
  {
    if p.key.Some? then p.key.value
    else if p.data.Some? && |p.data.value| > 0 && p.data.value[0].refId.Some? then p.data.value[0].refId.value
    else "A"
  }

  predicate UniqueKeys(es: seq<PacketEntry>)
  {
    forall i, j :: 0 <= i < j < |es| ==> es[i].key != es[j].key
  }

  /** `packets[key]`, None when there is no such key. */
  function Lookup(es: seq<PacketEntry>, k: string): Option<Packet>
  {
    if |es| == 0 then None
    else if es[0].key == k then Some(es[0].packet)
    else Lookup(es[1..], k)
  }

  /** `packets[key] = packet`: an existing key keeps its place, a new one goes last. */
  function Stored(es: seq<PacketEntry>, k: string, p: Packet): seq<PacketEntry>
  {
    if |es| == 0 then [PacketEntry(k, p)]
    else if es[0].key == k then [PacketEntry(k, p)] + es[1..]
    else [es[0]] + Stored(es[1..], k, p)
  }

  /**
   * Storing a packet replaces only the entry with its key: every other key
   * reads back what it held, the keys stay unique, and the map grows by one
   * exactly when the key was new.
   */
  lemma {:induction false} StoredReplacesOnlyItsKey(es: seq<PacketEntry>, k: string, p: Packet)
    requires UniqueKeys(es)
    ensures Lookup(Stored(es, k, p), k) == Some(p)
    ensures forall k2 :: k2 != k ==> Lookup(Stored(es, k, p), k2) == Lookup(es, k2)
    ensures UniqueKeys(Stored(es, k, p))
    ensures |Stored(es, k, p)| == if Lookup(es, k).None? then |es| + 1 else |es|
    ensures forall i :: 0 <= i < |es| ==> Stored(es, k, p)[i].key == es[i].key
  {
    if |es| > 0 && es[0].key != k {
      StoredReplacesOnlyItsKey(es[1..], k, p);
      var r := Stored(es, k, p);
      assert r == [es[0]] + Stored(es[1..], k, p);
      KeysOfStored(es[1..], k, p);
      forall i, j | 0 <= i < j < |r| ensures r[i].key != r[j].key {
        if i == 0 {
          assert r[j] == Stored(es[1..], k, p)[j - 1];
        }
      }
    } else if |es| > 0 {
      assert forall i :: 1 <= i < |es| ==> es[i].key != k;
      LookupAbsent(es[1..], k);
    }
  }

  lemma {:induction false} KeysOfStored(es: seq<PacketEntry>, k: string, p: Packet)
    ensures forall e :: e in Stored(es, k, p) ==> e.key == k || exists i :: 0 <= i < |es| && es[i].key == e.key
  {
    if |es| > 0 && es[0].key != k {
      KeysOfStored(es[1..], k, p);
      forall e | e in Stored(es, k, p) ensures e.key == k || exists i :: 0 <= i < |es| && es[i].key == e.key {
        if e != es[0] && e.key != k {
          var i :| 0 <= i < |es[1..]| && es[1..][i].key == e.key;
          assert es[i + 1].key == e.key;
        }
      }
    }
  }

  lemma {:induction false} LookupAbsent(es: seq<PacketEntry>, k: string)
    requires forall i :: 0 <= i < |es| ==> es[i].key != k
    ensures Lookup(es, k).None?
  {
    if |es| > 0 {
      LookupAbsent(es[1..], k);
    }
  }

  // ---------------------------------------------------------------------
  // What the stored packets add up to
  // ---------------------------------------------------------------------

  /** Some stored packet carries an error. */
  predicate AnyError(es: seq<PacketEntry>)
  {
    exists i :: 0 <= i < |es| && es[i].packet.error.Some?
  }

  /** The error of the last stored packet that has one. */
  function LastError(es: seq<PacketEntry>): Option<QueryError>
  {
    if |es| == 0 then None
    else if es[|es| - 1].packet.error.Some? then es[|es| - 1].packet.error
    else LastError(es[..|es| - 1])
  }

  /** The data of every stored packet, one after the other. */
  function Series(es: seq<PacketEntry>): seq<DataFrame>
  {
    if |es| == 0 then []
    else
      var d := es[|es| - 1].packet.data;
      Series(es[..|es| - 1]) + (if d.Some? then d.value else [])
  }

  /**
   * The error carried is None exactly when no stored packet has one, and
   * otherwise it is the error of a stored packet, the last one with an error.
   */
  lemma {:induction false} LastErrorIsStored(es: seq<PacketEntry>)
    ensures LastError(es).None? <==> !AnyError(es)
    ensures LastError(es).Some? ==>
      exists i :: 0 <= i < |es| && es[i].packet.error == LastError(es)
        && forall j :: i < j < |es| ==> es[j].packet.error.None?
  {
    if |es| > 0 {
      var init := es[..|es| - 1];
      LastErrorIsStored(init);
      assert forall i :: 0 <= i < |init| ==> init[i] == es[i];
      if es[|es| - 1].packet.error.None? && LastError(init).Some? {
        var i :| 0 <= i < |init| && init[i].packet.error == LastError(init)
          && forall j :: i < j < |init| ==> init[j].packet.error.None?;
        assert es[i].packet.error == LastError(es);
      }
    }
  }

  /** The series of two runs of packets is the two series concatenated. */
  lemma {:induction false} SeriesConcat(a: seq<PacketEntry>, b: seq<PacketEntry>)
    ensures Series(a + b) == Series(a) + Series(b)
  {
    if |b| == 0 {
      assert a + b == a;
    } else {
      assert (a + b)[..|a + b| - 1] == a + b[..|b| - 1];
      SeriesConcat(a, b[..|b| - 1]);
    }
  }

  /** One packet contributes its data, or nothing when it has none. */
  lemma SeriesOne(e: PacketEntry)
    ensures Series([e]) == e.packet.data.GetOr([])
  {
    assert [e][..0] == [];
  }

  /** `processResponsePacket(packet, state)`. */
  function Processed(packet: Packet, state: RunningQueryState): (r: RunningQueryState)
    ensures r.panelData.request == state.panelData.request
  {
    var packets := Stored(state.packets, PacketKey(packet), packet);
    RunningQueryState(packets, PanelData(
      if AnyError(packets) then Error else packet.state.GetOr(Done),
      Some(Series(packets)),
      LastError(packets),
      state.panelData.request))
  }

  /**
   * The new state is Error exactly when a stored packet has an error, and
   * otherwise the packet's own state, Done when it has none.
   */
  lemma ProcessedState(packet: Packet, state: RunningQueryState)
    requires UniqueKeys(state.packets)
    ensures var r := Processed(packet, state);
      (r.panelData.state == Error <==> AnyError(r.packets) || packet.state == Some(Error))
      && (!AnyError(r.packets) ==> r.panelData.state == packet.state.GetOr(Done) && r.panelData.error.None?)
      && Lookup(r.packets, PacketKey(packet)) == Some(packet)
      && UniqueKeys(r.packets)
  {
    StoredReplacesOnlyItsKey(state.packets, PacketKey(packet), packet);
    LastErrorIsStored(Stored(state.packets, PacketKey(packet), packet));
  }

  /** A packet with an error always turns the panel data to Error and carries an error. */
  lemma ErrorPacketGivesError(packet: Packet, state: RunningQueryState)
    requires UniqueKeys(state.packets) && packet.error.Some?
    ensures Processed(packet, state).panelData.state == Error
    ensures Processed(packet, state).panelData.error.Some?
  {
    var packets := Stored(state.packets, PacketKey(packet), packet);
    StoredReplacesOnlyItsKey(state.packets, PacketKey(packet), packet);
    LookupFound(packets, PacketKey(packet));
    LastErrorIsStored(packets);
  }

  lemma {:induction false} LookupFound(es: seq<PacketEntry>, k: string)
    requires Lookup(es, k).Some?
    ensures exists i :: 0 <= i < |es| && es[i].packet == Lookup(es, k).value
  {
    if es[0].key != k {
      LookupFound(es[1..], k);
      var i :| 0 <= i < |es[1..]| && es[1..][i].packet == Lookup(es[1..], k).value;
      assert es[i + 1] == es[1..][i];
    }
  }

  /** `processResponsePacket(packet, state)`: the copy, then the `for…in` loop over it. */
  method ProcessResponsePacket(packet: Packet, state: RunningQueryState) returns (r: RunningQueryState)
    ensures r == Processed(packet, state)
  {
    var request := state.panelData.request;
    var packets := Stored(state.packets, PacketKey(packet), packet);
    var loadingState := packet.state.GetOr(Done);
    var error: Option<QueryError> := None;
    var series: seq<DataFrame> := [];
    for i := 0 to |packets|
      invariant loadingState == if AnyError(packets[..i]) then Error else packet.state.GetOr(Done)
      invariant error == LastError(packets[..i])
      invariant series == Series(packets[..i])
    {
      assert packets[..i + 1][..i] == packets[..i];
      var p := packets[i].packet;
      if p.error.Some? {
        loadingState := Error;
        error := p.error;
      }
      if p.data.Some? && |p.data.value| > 0 {
        series := series + p.data.value;
      }
      assert AnyError(packets[..i + 1]) <==> AnyError(packets[..i]) || p.error.Some? by {
        assert forall j :: 0 <= j < i ==> packets[..i + 1][j] == packets[..i][j];
      }
    }
    assert packets[..|packets|] == packets;
    r := RunningQueryState(packets, PanelData(loadingState, Some(series), error, request));
  }

  // ---------------------------------------------------------------------
  // runRequest without queries
  // ---------------------------------------------------------------------

  /**
   * The start of `runRequest(request)` at time `now`: without targets, the
   * request gets `endTime = now` and the single answer is a Done panel data
   * without data; with targets the answer comes from the query pipeline,
   * which is not modelled (None).
   */
  function RunRequestStart(request: Request, now: int): (r: Option<(Request, PanelData)>)
    ensures r.Some? <==> |request.targets| == 0
    ensures r.Some? ==> r.value.0 == request.(endTime := Some(now))
    ensures r.Some? ==> r.value.1 == PanelData(Done, None, None, request.(endTime := Some(now)))
  {
    if |request.targets| == 0 then
      var ended := request.(endTime := Some(now));
      Some((ended, PanelData(Done, None, None, ended)))
    else None
  }
}
