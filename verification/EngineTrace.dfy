/** What an application sees of a peer: the order of its events in every run. */
module EngineTrace {
  import opened Transport
  import opened EngineModel
  import S = SendScheduler

  // --- Traces ------------------------------------------------------------------------------

  /** Between the Connected of the peer and its Disconnected. */
  predicate Up(trace: seq<Event>, id: PeerId) {
    if trace == [] then false
    else
      match trace[|trace| - 1]
      case Connected(q) => q == id || Up(trace[..|trace| - 1], id)
      case Disconnected(q, _) => q != id && Up(trace[..|trace| - 1], id)
      case _ => Up(trace[..|trace| - 1], id)
  }

  predicate Fits(trace: seq<Event>, event: Event, id: PeerId) {
    match event
    case ConnectionRequest(q) => q == id ==> !Up(trace, id)
    case Connected(q) => q == id ==> !Up(trace, id)
    case Message(q, _) => q == id ==> Up(trace, id)
    case Disconnected(_, _) => true // also of a session that never came up
  }

  /** Between a Connected and the next Disconnected neither another Connected nor a ConnectionRequest, and Messages only
      there. */
  predicate WellFormed(trace: seq<Event>, id: PeerId) {
    trace == [] || (WellFormed(trace[..|trace| - 1], id) && Fits(trace[..|trace| - 1], trace[|trace| - 1], id))
  }

  /** The same, said of the whole trace: what comes before a Message of the peer, and between two of its Connected. */
  lemma {:induction false} UpMeans(trace: seq<Event>, id: PeerId)
    requires Up(trace, id)
    ensures exists i :: 0 <= i < |trace| && trace[i] == Connected(id)
                     && forall j :: i < j < |trace| && trace[j].Disconnected? ==> trace[j].peer != id
  {
    var last, rest := trace[|trace| - 1], trace[..|trace| - 1];
    if last == Connected(id) {
      assert trace[|trace| - 1] == Connected(id);
    } else {
      UpMeans(rest, id);
      var i :| 0 <= i < |rest| && rest[i] == Connected(id)
            && forall j :: i < j < |rest| && rest[j].Disconnected? ==> rest[j].peer != id;
      assert trace[i] == Connected(id);
      forall j | i < j < |trace| && trace[j].Disconnected?
        ensures trace[j].peer != id
      {
        if j < |rest| { assert trace[j] == rest[j]; }
      }
    }
  }

  lemma {:induction false} DownMeans(trace: seq<Event>, id: PeerId, i: nat)
    requires !Up(trace, id) && i < |trace| && trace[i] == Connected(id)
    ensures exists j :: i < j < |trace| && trace[j].Disconnected? && trace[j].peer == id
    decreases |trace|
  {
    var last, rest := trace[|trace| - 1], trace[..|trace| - 1];
    if last.Disconnected? && last.peer == id {
      assert trace[|trace| - 1] == last;
    } else {
      assert i < |rest| && rest[i] == Connected(id);
      DownMeans(rest, id, i);
      var j :| i < j < |rest| && rest[j].Disconnected? && rest[j].peer == id;
      assert trace[j] == rest[j];
    }
  }

  lemma {:induction false} FitsAt(trace: seq<Event>, id: PeerId, k: nat)
    requires WellFormed(trace, id) && k < |trace|
    ensures Fits(trace[..k], trace[k], id)
    decreases |trace|
  {
    if k < |trace| - 1 {
      FitsAt(trace[..|trace| - 1], id, k);
      assert trace[..|trace| - 1][..k] == trace[..k];
    }
  }

  /** A well-formed trace as the application reads it. */
  lemma WellFormedMeans(trace: seq<Event>, id: PeerId, k: nat)
    requires WellFormed(trace, id) && k < |trace|
    ensures trace[k].Message? && trace[k].peer == id ==>
      exists i :: 0 <= i < k && trace[i] == Connected(id)
               && forall j :: i < j < k && trace[j].Disconnected? ==> trace[j].peer != id
    ensures trace[k] == Connected(id) || trace[k] == ConnectionRequest(id) ==>
      forall i :: 0 <= i < k && trace[i] == Connected(id) ==>
        exists j :: i < j < k && trace[j].Disconnected? && trace[j].peer == id
  {
    FitsAt(trace, id, k);
    if trace[k].Message? && trace[k].peer == id {
      UpMeans(trace[..k], id);
      var i :| 0 <= i < k && trace[..k][i] == Connected(id)
            && forall j :: i < j < k && trace[..k][j].Disconnected? ==> trace[..k][j].peer != id;
      assert trace[i] == Connected(id);
      forall j | i < j < k && trace[j].Disconnected? ensures trace[j].peer != id { assert trace[..k][j] == trace[j]; }
    }
    if trace[k] == Connected(id) || trace[k] == ConnectionRequest(id) {
      forall i | 0 <= i < k && trace[i] == Connected(id)
        ensures exists j :: i < j < k && trace[j].Disconnected? && trace[j].peer == id
      {
        assert trace[..k][i] == Connected(id);
        DownMeans(trace[..k], id, i);
        var j :| i < j < k && trace[..k][j].Disconnected? && trace[..k][j].peer == id;
        assert trace[j] == trace[..k][j];
      }
    }
  }

  lemma TraceMore(trace: seq<Event>, event: Event, id: PeerId)
    ensures WellFormed(trace + [event], id) <==> WellFormed(trace, id) && Fits(trace, event, id)
    ensures Up(trace + [event], id)
        <==> event == Connected(id) || (Up(trace, id) && !(event.Disconnected? && event.peer == id))
  {
    assert (trace + [event])[..|trace|] == trace;
  }

  // --- What holds of the sessions ------------------------------------------------------------------

  /** A session that is over for one side was reported, if the application knew of it. */
  predicate FlagsOk(p: Peer) {
    && (p.closeSent ==> p.state == Closing)
    && ((p.ended || p.closeSent) && p.announced ==> p.reported)
    && (TransfersData(p) ==> p.announced)
    && (p.reported ==> p.announced)
  }

  /** Only a session that is over was reported: what holds between actions. */
  predicate Settled(p: Peer) { p.reported ==> p.ended || p.closeSent }

  predicate IsUp(p: Peer) { TransfersData(p) && !p.reported }

  /** busy: the peer whose session is just being ended. */
  ghost predicate PeersOk(e: Engine, busy: set<PeerId>) {
    forall id :: id in e.peers ==> FlagsOk(e.peers[id]) && (id !in busy ==> Settled(e.peers[id]))
  }

  /** The application's view agrees with the records. */
  ghost predicate ViewOk(e: Engine, id: PeerId) {
    WellFormed(e.events, id) && (Up(e.events, id) <==> id in e.peers && IsUp(e.peers[id]))
  }

  ghost predicate TraceOk(e: Engine) { forall id :: ViewOk(e, id) }

  /** Every record has a number of its own, and the outcome of none was told twice. */
  ghost predicate RecordsOk(e: Engine) {
    && (forall id :: id in e.peers ==> 1 <= e.peers[id].record <= e.records)
    && (forall a, b :: a in e.peers && b in e.peers && e.peers[a].record == e.peers[b].record ==> a == b)
    && (forall i :: 0 <= i < |e.events| && e.events[i].Disconnected? ==> e.events[i].record <= e.records)
    && (forall i, id :: 0 <= i < |e.events| && id in e.peers && Tells(e.events[i], e.peers[id]) ==> e.peers[id].reported)
    && ToldOnce(e.events)
  }

  /** The event is the outcome of the record. */
  predicate Tells(event: Event, p: Peer) { event.Disconnected? && event.record == p.record }

  ghost predicate ToldOnce(trace: seq<Event>) {
    forall i, j :: 0 <= i < j < |trace| && trace[i].Disconnected? && trace[j].Disconnected? && trace[i].record > 0 ==>
      trace[i].record != trace[j].record
  }

  ghost predicate SessionsOk(e: Engine, busy: set<PeerId>) { PeersOk(e, busy) && TraceOk(e) && RecordsOk(e) }

  /** The record is the same one, and what was told stays told. */
  predicate Continues(p: Peer, p': Peer) { p'.record == p.record && (p.reported ==> p'.reported) }

  lemma RecordsQuiet(e: Engine, e': Engine)
    requires RecordsOk(e) && e'.records == e.records
    requires forall id :: id in e'.peers ==> id in e.peers && Continues(e.peers[id], e'.peers[id])
    requires e.events <= e'.events
    requires forall i :: |e.events| <= i < |e'.events| && e'.events[i].Disconnected? ==> e'.events[i].record == 0
    ensures RecordsOk(e')
  {
  }

  lemma RecordsTold(e: Engine, e': Engine, id: PeerId)
    requires RecordsOk(e) && e'.records == e.records && id in e.peers && !e.peers[id].reported
    requires id in e'.peers && e'.peers == e.peers[id := e'.peers[id]]
    requires e'.peers[id].record == e.peers[id].record && e'.peers[id].reported
    requires e'.events == e.events + [Disconnected(id, e.peers[id].record)]
    ensures RecordsOk(e')
  {
  }

  /** One record changed without an event, and is seen as before. */
  lemma QuietChange(e: Engine, e': Engine, id: PeerId, busy: set<PeerId>)
    requires SessionsOk(e, busy + {id}) && id in e.peers && id in e'.peers && e'.peers == e.peers[id := e'.peers[id]]
    requires e'.events == e.events && e'.records == e.records && IsUp(e'.peers[id]) == IsUp(e.peers[id])
    requires FlagsOk(e'.peers[id]) && (id !in busy ==> Settled(e'.peers[id])) && Continues(e.peers[id], e'.peers[id])
    ensures SessionsOk(e', busy)
  {
    hide FlagsOk, Settled, IsUp, WellFormed, Up, RecordsOk;
    RecordsQuiet(e, e');
    forall x ensures ViewOk(e', x) { assert ViewOk(e, x); }
  }

  /** One record changed, and one event says so. */
  lemma ToldChange(e: Engine, e': Engine, id: PeerId, event: Event, busy: set<PeerId>)
    requires SessionsOk(e, busy + {id}) && id in e.peers && id in e'.peers && e'.peers == e.peers[id := e'.peers[id]]
    requires e'.events == e.events + [event] && event.peer == id && !event.Message? && e'.records == e.records
    requires event.Connected? || event.ConnectionRequest? ==> !IsUp(e.peers[id])
    requires event.Disconnected? ==> event.record == e.peers[id].record && !e.peers[id].reported && e'.peers[id].reported
    requires IsUp(e'.peers[id]) <==> event.Connected? || (IsUp(e.peers[id]) && !event.Disconnected?)
    requires FlagsOk(e'.peers[id]) && (id !in busy ==> Settled(e'.peers[id])) && Continues(e.peers[id], e'.peers[id])
    ensures SessionsOk(e', busy)
  {
    hide FlagsOk, Settled, IsUp, WellFormed, Up, RecordsOk;
    if event.Disconnected? { RecordsTold(e, e', id); } else { RecordsQuiet(e, e'); }
    forall x ensures ViewOk(e', x) {
      assert ViewOk(e, x);
      TraceMore(e.events, event, x);
    }
  }

  lemma PeerIsOk(e: Engine, id: PeerId, busy: set<PeerId>)
    requires SessionsOk(e, busy) && id in e.peers
    ensures FlagsOk(e.peers[id]) && (id !in busy ==> Settled(e.peers[id]))
  {
  }

  lemma WiderOk(e: Engine, busy: set<PeerId>, id: PeerId)
    requires SessionsOk(e, busy)
    ensures SessionsOk(e, busy + {id})
  {
  }

  lemma ReportOk(e: Engine, id: PeerId, busy: set<PeerId>)
    requires SessionsOk(e, busy) && id in e.peers
    ensures SessionsOk(Report(e, id), busy + {id}) && id in Report(e, id).peers
    ensures var p, p' := e.peers[id], Report(e, id).peers[id]; p' == p.(reported := p'.reported) && (p.announced ==> p'.reported)
  {
    hide SessionsOk;
    var p, e' := e.peers[id], Report(e, id);
    PeerIsOk(e, id, busy);
    WiderOk(e, busy, id);
    assert busy + {id} + {id} == busy + {id};
    if p.announced && !p.reported { ToldChange(e, e', id, Disconnected(id, p.record), busy + {id}); }
  }

  // --- Every step of a session keeps it ------------------------------------------------------

  /** A session that was reported, if it had to be, ends. */
  lemma EndOk(e: Engine, id: PeerId, busy: set<PeerId>)
    requires SessionsOk(e, busy + {id}) && id in e.peers && (e.peers[id].announced ==> e.peers[id].reported)
    ensures SessionsOk(End(e, id), busy)
  {
    hide SessionsOk;
    PeerIsOk(e, id, busy + {id});
    assert e.peers[id := e.peers[id]] == e.peers;
    QuietChange(e, End(e, id), id, busy);
  }

  lemma GoodbyeOk(e: Engine, id: PeerId, busy: set<PeerId>)
    requires SessionsOk(e, busy + {id}) && id in e.peers && (e.peers[id].announced ==> e.peers[id].reported)
    ensures SessionsOk(SayGoodbye(e, id), busy)
  {
    hide SessionsOk;
    PeerIsOk(e, id, busy + {id});
    QuietChange(e, SayGoodbye(e, id), id, busy);
  }

  lemma SendDeclineOk(e: Engine, id: PeerId)
    requires SessionsOk(e, {}) && id in e.peers
    ensures SessionsOk(SendDecline(e, id), {})
  {
    hide SessionsOk, Report, SayGoodbye;
    ReportOk(e, id, {});
    GoodbyeOk(Report(e, id), id, {});
  }

  lemma BoxesOnly(e: Engine, boxes: set<PeerId>, busy: set<PeerId>)
    requires SessionsOk(e, busy)
    ensures SessionsOk(e.(boxes := boxes), busy)
  {
    hide FlagsOk, Settled, IsUp, WellFormed, Up;
    forall x ensures ViewOk(e.(boxes := boxes), x) { assert ViewOk(e, x); }
  }

  lemma SendCloseOk(e: Engine, id: PeerId, heard: bool)
    requires SessionsOk(e, {id}) && id in e.peers && (e.peers[id].announced ==> e.peers[id].reported)
    ensures SessionsOk(SendClose(e, id, heard), {})
  {
    hide SessionsOk, End, SayGoodbye;
    assert {} + {id} == {id};
    if heard {
      GoodbyeOk(e, id, {});
    } else {
      BoxesOnly(e, e.boxes - {id}, {id});
      EndOk(e.(boxes := e.boxes - {id}), id, {});
    }
  }

  lemma ReportCloseOk(e: Engine, id: PeerId, heard: bool)
    requires SessionsOk(e, {}) && id in e.peers
    ensures id in Report(e, id).peers && SessionsOk(SendClose(Report(e, id), id, heard), {})
  {
    hide SessionsOk, Report, SendClose;
    assert {} + {id} == {id};
    ReportOk(e, id, {});
    SendCloseOk(Report(e, id), id, heard);
  }

  lemma ReportEndOk(e: Engine, id: PeerId)
    requires SessionsOk(e, {}) && id in e.peers
    ensures id in Report(e, id).peers && SessionsOk(End(Report(e, id), id), {})
  {
    hide SessionsOk, Report, End;
    ReportOk(e, id, {});
    EndOk(Report(e, id), id, {});
  }

  lemma SendAcceptOk(e: Engine, id: PeerId)
    requires SessionsOk(e, {}) && id in e.peers && !e.peers[id].closeSent && !TransfersData(e.peers[id])
    ensures SessionsOk(SendAccept(e, id), {})
  {
    hide SessionsOk;
    PeerIsOk(e, id, {});
    WiderOk(e, {}, id);
    QuietChange(e, SendAccept(e, id), id, {});
  }

  lemma SetConnectedOk(e: Engine, id: PeerId)
    requires SessionsOk(e, {}) && id in e.peers && e.peers[id].state == Connecting && !e.peers[id].ended
    ensures SessionsOk(SetConnected(e, id), {})
  {
    hide SessionsOk;
    PeerIsOk(e, id, {});
    WiderOk(e, {}, id);
    ToldChange(e, SetConnected(e, id), id, Connected(id), {});
  }

  /** A record the application does not see as connected may go. */
  lemma EraseOk(e: Engine, id: PeerId, busy: set<PeerId>)
    requires SessionsOk(e, busy) && (id in e.peers ==> !IsUp(e.peers[id]))
    ensures SessionsOk(Erase(e, id), busy - {id})
  {
    hide FlagsOk, Settled, IsUp, WellFormed, Up, RecordsOk;
    var e' := Erase(e, id);
    RecordsQuiet(e, e');
    forall x ensures ViewOk(e', x) { assert ViewOk(e, x); }
  }

  lemma RecordsAdded(e: Engine, id: PeerId, stream: nat, initiator: bool, announced: bool)
    requires RecordsOk(e) && id !in e.peers
    ensures RecordsOk(AddPeer(e, id, stream, initiator, announced))
  {
  }

  lemma AddPeerOk(e: Engine, id: PeerId, stream: nat, initiator: bool, announced: bool)
    requires SessionsOk(e, {}) && id !in e.peers
    ensures SessionsOk(AddPeer(e, id, stream, initiator, announced), {})
  {
    RecordsAdded(e, id, stream, initiator, announced);
    hide WellFormed, Up, RecordsOk;
    var e' := AddPeer(e, id, stream, initiator, announced);
    forall x ensures ViewOk(e', x) { assert ViewOk(e, x); }
  }

  /** An event that changes nothing the application relies on. */
  lemma EmitOk(e: Engine, event: Event)
    requires SessionsOk(e, {})
    requires match event
      case ConnectionRequest(q) => q in e.peers && !IsUp(e.peers[q])
      case Disconnected(q, record) => record == 0 && q !in e.peers
      case Message(q, _) => q in e.peers && IsUp(e.peers[q])
      case Connected(_) => false
    ensures SessionsOk(Emit(e, event), {})
  {
    hide FlagsOk, Settled, IsUp, WellFormed, Up, RecordsOk;
    var e' := Emit(e, event);
    RecordsQuiet(e, e') by { assert forall id :: id in e.peers ==> Continues(e.peers[id], e.peers[id]); }
    forall x ensures ViewOk(e', x) {
      assert ViewOk(e, x);
      TraceMore(e.events, event, x);
    }
  }

  // --- Every action keeps it ------------------------------------------------------------------

  lemma StartSessionOk(e: Engine, id: PeerId, known: bool, bound: bool, stream: nat)
    requires SessionsOk(e, {})
    ensures SessionsOk(StartSession(e, id, known, bound, stream), {})
  {
    hide SessionsOk, Erase, AddPeer, Emit, SendAccept;
    if !e.shutdown {
      if id in e.peers { PeerIsOk(e, id, {}); }
      if Startable(e, id) {
        var e1 := Erase(e, id);
        EraseOk(e, id, {});
        ErasedIsGone(e, id);
        assert {} - {id} == {};
        AddPeerOk(e1, id, stream, true, true);
        EmitOk(e1, Disconnected(id, 0));
      } else if e.peers[id].state == AwaitingDecision {
        SendAcceptOk(e, id);
      }
    }
  }

  lemma ErasedIsGone(e: Engine, id: PeerId)
    ensures id !in Erase(e, id).peers
    ensures forall x :: x in Erase(e, id).peers <==> x in e.peers && x != id
    ensures forall x :: x in Erase(e, id).peers ==> Erase(e, id).peers[x] == e.peers[x]
    ensures Erase(e, id).events == e.events
  {
  }

  lemma EndSessionOk(e: Engine, id: PeerId, heard: bool)
    requires SessionsOk(e, {}) && id in e.peers
    ensures SessionsOk(EndSession(e, id, heard), {})
  {
    hide SessionsOk, Report, SendClose, SendDecline;
    match e.peers[id].state
    case Established =>
      PeerIsOk(e, id, {});
      WiderOk(e, {}, id);
      QuietChange(e, EndSession(e, id, heard), id, {});
    case AwaitingDecision => SendDeclineOk(e, id);
    case Connecting => ReportCloseOk(e, id, heard);
    case Closing =>
  }

  lemma ReportTwice(e: Engine, id: PeerId)
    requires id in e.peers
    ensures id in Report(e, id).peers && Report(Report(e, id), id) == Report(e, id)
  {
  }

  lemma ReportedAlready(e: Engine, id: PeerId)
    requires id in e.peers && (e.peers[id].announced ==> e.peers[id].reported)
    ensures Report(e, id) == e
  {
  }

  lemma ShutDownOneOk(e: Engine, id: PeerId, heard: bool)
    requires SessionsOk(e, {}) && id in e.peers
    ensures SessionsOk(ShutDownOne(e, id, heard), {})
  {
    hide SessionsOk, Report, SendClose, SayGoodbye;
    PeerIsOk(e, id, {});
    if e.peers[id].state == AwaitingDecision {
      ReportTwice(e, id);
      SendDeclineOk(e, id);
    } else if !e.peers[id].closeSent {
      ReportCloseOk(e, id, heard);
    } else {
      ReportedAlready(e, id);
    }
  }

  lemma {:induction false} ShutDownEachOk(e: Engine, ids: seq<PeerId>, heard: set<PeerId>)
    requires SessionsOk(e, {})
    ensures SessionsOk(ShutDownEach(e, ids, heard), {})
    decreases |ids|
  {
    hide SessionsOk, ShutDownOne;
    if ids != [] {
      if ids[0] in e.peers { ShutDownOneOk(e, ids[0], ids[0] in heard); }
      ShutDownEachOk(if ids[0] in e.peers then ShutDownOne(e, ids[0], ids[0] in heard) else e, ids[1..], heard);
    }
  }

  /** Only what the application does not look at changed. */
  lemma SameSeen(e: Engine, e': Engine)
    requires SessionsOk(e, {}) && e'.peers == e.peers && e'.events == e.events && e'.records == e.records
    ensures SessionsOk(e', {})
  {
    hide FlagsOk, Settled, IsUp, WellFormed, Up;
    forall x ensures ViewOk(e', x) { assert ViewOk(e, x); }
  }

  lemma BeginShutdownOk(e: Engine, ids: seq<PeerId>, heard: set<PeerId>)
    requires SessionsOk(e, {})
    ensures SessionsOk(BeginShutdown(e, ids, heard), {})
  {
    hide SessionsOk, ShutDownEach;
    SameSeen(e, e.(shutdown := true));
    ShutDownEachOk(e.(shutdown := true), ids, heard);
  }

  /** Whatever was to be told has been. */
  ghost predicate AllTold(e: Engine, ids: seq<PeerId>) {
    forall id :: id in e.peers && id in ids && e.peers[id].announced ==> e.peers[id].reported
  }

  lemma ReportTells(e: Engine, id: PeerId, done: seq<PeerId>)
    requires AllTold(e, done) && id in e.peers
    ensures AllTold(Report(e, id), done + [id]) && Report(e, id).peers.Keys == e.peers.Keys
  {
  }

  lemma {:induction false} ReportEachOk(e: Engine, ids: seq<PeerId>, done: seq<PeerId>)
    requires SessionsOk(e, e.peers.Keys) && AllTold(e, done)
    ensures SessionsOk(ReportEach(e, ids), e.peers.Keys)
    ensures AllTold(ReportEach(e, ids), done + ids) && ReportEach(e, ids).peers.Keys == e.peers.Keys
    decreases |ids|
  {
    if ids == [] {
      assert done + ids == done;
    } else {
      assert done + [ids[0]] + ids[1..] == done + ids;
      assert ids[0] !in e.peers ==> AllTold(e, done + [ids[0]]);
      hide SessionsOk, Report, AllTold;
      if ids[0] in e.peers {
        ReportOk(e, ids[0], e.peers.Keys);
        assert e.peers.Keys + {ids[0]} == e.peers.Keys;
        ReportTells(e, ids[0], done);
        ReportEachOk(Report(e, ids[0]), ids[1..], done + [ids[0]]);
      } else {
        ReportEachOk(e, ids[1..], done + [ids[0]]);
      }
    }
  }

  lemma AllBusy(e: Engine)
    requires SessionsOk(e, {})
    ensures SessionsOk(e, e.peers.Keys)
  {
  }

  /** Once everything is told, all records may go. */
  lemma AllGone(e: Engine, e': Engine, busy: set<PeerId>)
    requires SessionsOk(e, busy) && e'.peers == map[] && e'.events == e.events && e'.records == e.records
    requires forall id :: id in e.peers && e.peers[id].announced ==> e.peers[id].reported
    ensures SessionsOk(e', {})
  {
    hide WellFormed, Up, RecordsOk;
    RecordsQuiet(e, e');
    forall x ensures ViewOk(e', x) {
      assert ViewOk(e, x);
      if x in e.peers { PeerIsOk(e, x, busy); }
    }
  }

  lemma EndAllOk(e: Engine, ids: seq<PeerId>)
    requires SessionsOk(e, {}) && Lists(ids, e.peers)
    ensures SessionsOk(EndAllSessions(e, ids), {})
  {
    hide SessionsOk, ReportEach;
    AllBusy(e);
    ReportEachOk(e, ids, []);
    assert [] + ids == ids;
    AllGone(ReportEach(e, ids), EndAllSessions(e, ids), e.peers.Keys);
  }

  lemma DisplacedOk(e: Engine, from: PeerId)
    requires SessionsOk(e, {})
    ensures SessionsOk(Displaced(e, from), {}) && from !in Displaced(e, from).peers
  {
    hide SessionsOk, Report, Erase;
    if from in e.peers {
      PeerIsOk(e, from, {});
      assert {} - {from} == {} && {} + {from} - {from} == {};
      if Crosses(e, from) {
        EraseOk(e, from, {});
        ErasedIsGone(e, from);
      } else {
        ReportOk(e, from, {});
        EraseOk(Report(e, from), from, {} + {from});
        ErasedIsGone(Report(e, from), from);
      }
    }
  }

  lemma AdmittedOk(e: Engine, h: Hello, crossing: bool)
    requires SessionsOk(e, {}) && h.from !in e.peers
    ensures SessionsOk(Admitted(e, h, crossing), {})
  {
    hide SessionsOk;
    if crossing || e.autoAccept {
      AddPeerOk(e, h.from, h.stream, false, crossing);
      SendAcceptOk(AddPeer(e, h.from, h.stream, false, crossing), h.from);
    } else {
      var e1 := AddPeer(e, h.from, h.stream, false, true);
      AddPeerOk(e, h.from, h.stream, false, true);
      WiderOk(e1, {}, h.from);
      var e2 := WithPeer(e1, h.from, e1.peers[h.from].(state := AwaitingDecision));
      QuietChange(e1, e2, h.from, {});
      EmitOk(e2, ConnectionRequest(h.from));
    }
  }

  lemma OnHelloOk(e: Engine, h: Hello)
    requires SessionsOk(e, {})
    ensures SessionsOk(OnHello(e, h).0, {})
  {
    hide SessionsOk, Displaced, AtLimit, Admitted;
    DisplacedOk(e, h.from);
    AdmittedOk(Displaced(e, h.from), h, Crosses(e, h.from));
  }

  lemma HandleDatagramOk(e: Engine, d: Datagram)
    requires SessionsOk(e, {})
    ensures SessionsOk(HandleDatagram(e, d), {})
  {
    hide SessionsOk, OnHello, SetConnected;
    var (e1, found) := PeerOf(e, d);
    if d.dst == 0 && d.hello.Some? { OnHelloOk(e, d.hello.value); }
    if found.Some? && found.value in e1.peers && !e1.peers[found.value].ended && e1.peers[found.value].state == Connecting {
      SetConnectedOk(e1, found.value);
    }
  }

  lemma DeliverOk(e: Engine, id: PeerId, m: Delivered)
    requires SessionsOk(e, {}) && id in e.peers
    ensures SessionsOk(Deliver(e, id, m), {})
  {
    hide SessionsOk, Report, End, SetConnected, Emit;
    if m.GotData? {
      if !e.peers[id].reported && TransfersData(e.peers[id]) { EmitOk(e, Message(id, m.lane)); }
    } else {
      ReportEndOk(e, id);
      if !e.peers[id].ended && e.peers[id].state == Connecting { SetConnectedOk(e, id); }
    }
  }

  lemma {:induction false} DeliverAllOk(e: Engine, id: PeerId, messages: seq<Delivered>)
    requires SessionsOk(e, {}) && id in e.peers
    ensures SessionsOk(DeliverAll(e, id, messages), {})
    decreases |messages|
  {
    hide SessionsOk, Deliver;
    if messages != [] {
      DeliverOk(e, id, messages[0]);
      DeliverKeeps(e, id, messages[0]);
      DeliverAllOk(Deliver(e, id, messages[0]), id, messages[1..]);
    }
  }

  lemma DeliverKeeps(e: Engine, id: PeerId, m: Delivered)
    requires id in e.peers
    ensures id in Deliver(e, id, m).peers
  {
  }

  lemma ProgressOk(e: Engine, id: PeerId, look: Look)
    requires SessionsOk(e, {}) && id in e.peers && !e.peers[id].ended
    ensures SessionsOk(Progress(e, id, look), {})
  {
    hide SessionsOk, Report, End, SetConnected, SendDecline, SendClose;
    PeerIsOk(e, id, {});
    match e.peers[id].state
    case Connecting => SetConnectedOk(e, id);
    case AwaitingDecision => SendDeclineOk(e, id);
    case Established =>
    case Closing =>
      if e.peers[id].closeSent {
        WiderOk(e, {}, id);
        EndOk(e, id, {});
      } else {
        ReportCloseOk(e, id, look.heard);
      }
  }

  lemma AdvanceOk(e: Engine, id: PeerId, look: Look)
    requires SessionsOk(e, {}) && id in e.peers
    ensures SessionsOk(Advance(e, id, look), {})
  {
    hide SessionsOk, Report, End, DeliverAll, Progress;
    if !e.peers[id].ended {
      ReportEndOk(e, id);
      DeliverAllOk(e, id, look.delivered);
      var e1 := DeliverAll(e, id, look.delivered);
      if !e1.peers[id].ended { ProgressOk(e1, id, look); }
    }
  }

  /** Lanes are scheduled and unscheduled without the application noticing. */
  ghost predicate SameButLanes(e: Engine, e': Engine) {
    && e'.events == e.events && e'.records == e.records && e'.peers.Keys == e.peers.Keys
    && forall id :: id in e.peers ==> e'.peers[id] == e.peers[id].(scheduled := e'.peers[id].scheduled)
  }

  lemma LanesOk(e: Engine, e': Engine)
    requires SessionsOk(e, {}) && SameButLanes(e, e')
    ensures SessionsOk(e', {})
  {
    hide WellFormed, Up, RecordsOk;
    RecordsQuiet(e, e');
    forall x ensures ViewOk(e', x) { assert ViewOk(e, x); }
  }

  lemma ScheduleLaneOnly(e0: Engine, e: Engine, id: PeerId, lane: Lane, offers: set<Lane>)
    requires SameButLanes(e0, e) && id in e.peers
    ensures SameButLanes(e0, ScheduleLane(e, id, lane, offers)) && id in ScheduleLane(e, id, lane, offers).peers
  {
    hide S.Add;
  }

  lemma ScheduleLanes(e: Engine, id: PeerId, offers: set<Lane>)
    requires id in e.peers
    ensures SameButLanes(e, Schedule(e, id, offers))
  {
    assert SameButLanes(e, e);
    hide SameButLanes, ScheduleLane;
    var e1 := ScheduleLane(e, id, Control, offers);
    ScheduleLaneOnly(e, e, id, Control, offers);
    var e2 := ScheduleLane(e1, id, Media, offers);
    ScheduleLaneOnly(e, e1, id, Media, offers);
    var e3 := ScheduleLane(e2, id, Reliable, offers);
    ScheduleLaneOnly(e, e2, id, Reliable, offers);
    ScheduleLaneOnly(e, e3, id, Bulk, offers);
  }

  lemma EraseEndedOne(e: Engine, id: PeerId)
    requires SessionsOk(e, {}) && id in e.peers && e.peers[id].ended
    ensures SessionsOk(Erase(e, id), {})
  {
    hide SessionsOk, Erase;
    PeerIsOk(e, id, {});
    assert {} - {id} == {};
    EraseOk(e, id, {});
  }

  lemma {:induction false} EraseEndedOk(e: Engine, ids: seq<PeerId>)
    requires SessionsOk(e, {})
    ensures SessionsOk(EraseEnded(e, ids), {})
    decreases |ids|
  {
    hide SessionsOk, Erase;
    if ids != [] {
      if ids[0] in e.peers && e.peers[ids[0]].ended {
        EraseEndedOne(e, ids[0]);
        EraseEndedOk(Erase(e, ids[0]), ids[1..]);
      } else {
        EraseEndedOk(e, ids[1..]);
      }
    }
  }

  /** Every action keeps the order of the events. */
  lemma StepOk(e: Engine, a: Action)
    requires SessionsOk(e, {}) && Allowed(e, a)
    ensures SessionsOk(Step(e, a), {})
  {
    hide SessionsOk, StartSession, SendDecline, EndSession, BeginShutdown, EndAllSessions, HandleDatagram, Advance,
         Schedule, EraseEnded, SendAccept, SendData;
    match a
    case DoConnect(id, known, bound, stream) => StartSessionOk(e, id, known, bound, stream);
    case DoAccept(id) =>
      if id in e.peers && e.peers[id].state == AwaitingDecision { PeerIsOk(e, id, {}); SendAcceptOk(e, id); }
    case DoDecline(id) => if id in e.peers { SendDeclineOk(e, id); }
    case DoDisconnect(id, heard) => if id in e.peers { EndSessionOk(e, id, heard); }
    case DoShutdown(ids, heard) => BeginShutdownOk(e, ids, heard);
    case DoEndAll(ids) => EndAllOk(e, ids);
    case DoReceive(d) => HandleDatagramOk(e, d);
    case DoAdvance(id, look) => if id in e.peers { AdvanceOk(e, id, look); }
    case DoSchedule(id, offers) =>
      if id in e.peers { ScheduleLanes(e, id, offers); LanesOk(e, Schedule(e, id, offers)); }
    case DoSend(answers) => SendDataLanes(e, answers); LanesOk(e, SendData(e, answers));
    case DoSweep => SameSeen(e, e.(ended := [])); EraseEndedOk(e.(ended := []), e.ended);
  }

  lemma SendDataLanes(e: Engine, answers: seq<S.Answer>)
    ensures SameButLanes(e, SendData(e, answers))
  {
    hide S.Run;
  }

  predicate AllAllowed(e: Engine, actions: seq<Action>)
    decreases |actions|
  {
    actions == [] || (Allowed(e, actions[0]) && AllAllowed(Step(e, actions[0]), actions[1..]))
  }

  function Run(e: Engine, actions: seq<Action>): Engine
    decreases |actions|
  {
    if actions == [] then e else Run(Step(e, actions[0]), actions[1..])
  }

  lemma {:induction false} RunOk(e: Engine, actions: seq<Action>)
    requires SessionsOk(e, {}) && AllAllowed(e, actions)
    ensures SessionsOk(Run(e, actions), {})
    decreases |actions|
  {
    hide SessionsOk, Step, Allowed;
    if actions != [] {
      StepOk(e, actions[0]);
      RunOk(Step(e, actions[0]), actions[1..]);
    }
  }

  /** In every run of an engine, for every peer: the events come in the promised order, and no record is told of twice. */
  lemma EventsInOrder(id: PeerId, autoAccept: bool, rate: nat, actions: seq<Action>, peer: PeerId)
    requires AllAllowed(NewEngine(id, autoAccept, rate), actions)
    ensures WellFormed(Run(NewEngine(id, autoAccept, rate), actions).events, peer)
    ensures ToldOnce(Run(NewEngine(id, autoAccept, rate), actions).events)
  {
    var e := NewEngine(id, autoAccept, rate);
    assert SessionsOk(e, {});
    RunOk(e, actions);
    assert ViewOk(Run(e, actions), peer);
    hide *;
  }
}
