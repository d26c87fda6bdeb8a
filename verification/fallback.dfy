/** The fallback synthesizer: which provider speaks for a response, and how long that is remembered. */
module Fallback {
  import opened Domain

  datatype Voice = Primary | Backup

  /** Client errors other than rate limiting are the caller's fault; another provider would not help. */
  datatype Failure = Client | Temporary

  /** What a provider delivers before it ends or raises; `cancelled` is the cancel event at that moment. */
  datatype Attempt = Attempt(chunks: nat, raises: Option<Failure>, cancelled: bool)

  datatype Ending = Done | Raised(failure: Failure)

  /** A dictionary with its insertion order. */
  datatype Pins = Pins(order: seq<string>, voices: map<string, Voice>)
  {
    ghost predicate Valid() {
      && (forall i, j | 0 <= i < j < |order| :: order[i] != order[j])
      && (forall id :: id in order <==> id in voices)
      && |order| <= 128
    }

    function Of(id: string): (v: Option<Voice>)
      ensures v in {None, Some(Primary), Some(Backup)}
    {
      if id !in voices then None else match voices[id] case Primary => Some(Primary) case Backup => Some(Backup)
    }
  }

  /** Pinning again changes nothing; a new pin may push out the oldest one. */
  function Pin(p: Pins, id: string, v: Voice): Pins {
    if id in p.voices then p
    else
      var order, voices := p.order + [id], p.voices[id := v];
      if |order| > 128 then Pins(order[1..], voices - {order[0]}) else Pins(order, voices)
  }

  function Voiced(v: Voice, n: nat): (vs: seq<Voice>)
    ensures |vs| == n && forall i | 0 <= i < n :: vs[i] == v
  {
    if n == 0 then [] else Voiced(v, n - 1) + [v]
  }

  /** The backup may take over: nothing was heard, nobody cancelled, nothing is pinned and it may help. */
  predicate TakesOver(pinned: Option<Voice>, primary: Attempt) {
    && primary.raises.Some? && primary.chunks == 0 && !primary.cancelled
    && pinned != Some(Primary) && primary.raises.value.Temporary?
  }

  function EndOf(a: Attempt): Ending { if a.raises.Some? then Raised(a.raises.value) else Done }

  /** One request for a response: the new pins, the voices of the chunks it yields, and how it ends. */
  function Speak(p: Pins, id: string, primary: Attempt, backup: Attempt): (Pins, seq<Voice>, Ending) {
    if p.Of(id) == Some(Backup) then (p, Voiced(Backup, backup.chunks), EndOf(backup))
    else if TakesOver(p.Of(id), primary) then
      (if backup.chunks > 0 then Pin(p, id, Backup) else p, Voiced(Backup, backup.chunks), EndOf(backup))
    else (if primary.chunks > 0 then Pin(p, id, Primary) else p, Voiced(Primary, primary.chunks), EndOf(primary))
  }

  class FallbackStreamingTTSProvider {
    var order: seq<string>
    var responseProvider: map<string, Voice>
    var activeProvider: Voice
    var lastFallbackReason: Option<Failure>

    ghost function View(): Pins
      reads this
    {
      Pins(order, responseProvider)
    }

    constructor ()
      ensures View() == Pins([], map[]) && View().Valid()
    {
      order, responseProvider, activeProvider, lastFallbackReason := [], map[], Primary, None;
    }

    method PinResponseProvider(id: string, v: Voice) returns (raised: bool)
      requires View().Valid()
      modifies this`order, this`responseProvider
      ensures View().Valid()
      ensures raised == (old(View()).Of(id).Some? && old(View()).Of(id) != Some(v))
      ensures View() == if raised then old(View()) else Pin(old(View()), id, v)
    {
      PinKeeps(View(), id, v);
      if id in responseProvider && responseProvider[id] != v { return true; }
      raised := false;
      if id !in responseProvider {
        order, responseProvider := order + [id], responseProvider[id := v];
        if |order| > 128 {
          order, responseProvider := order[1..], responseProvider - {order[0]};
        }
      }
    }

    /** The chunks of one provider, each pinned before it is passed on. */
    method Forward(id: string, v: Voice, n: nat) returns (heard: seq<Voice>, raised: bool)
      requires View().Valid() && (View().Of(id).Some? ==> View().Of(id) == Some(v))
      modifies this`order, this`responseProvider
      ensures View().Valid() && !raised && heard == Voiced(v, n)
      ensures View() == if n > 0 then Pin(old(View()), id, v) else old(View())
    {
      heard, raised := [], false;
      PinKeeps(View(), id, v);
      for i := 0 to n
        invariant View().Valid() && !raised && heard == Voiced(v, i)
        invariant View() == if i > 0 then Pin(old(View()), id, v) else old(View())
      {
        raised := PinResponseProvider(id, v);
        heard := heard + [v];
      }
    }

    method StreamSpeech(id: string, primary: Attempt, backup: Attempt) returns (heard: seq<Voice>, ending: Ending)
      requires View().Valid()
      modifies this
      ensures View().Valid() && (View(), heard, ending) == Speak(old(View()), id, primary, backup)
      ensures heard != [] ==> heard[0] == activeProvider
    {
      var pinned := if id in responseProvider then Some(responseProvider[id]) else None;
      if pinned == Some(Backup) {
        activeProvider := Backup;
        return Voiced(Backup, backup.chunks), EndOf(backup);
      }
      lastFallbackReason, activeProvider := None, Primary;
      var raised;
      heard, raised := Forward(id, Primary, primary.chunks);
      ending := EndOf(primary);
      if primary.raises.None? || heard != [] || primary.cancelled || pinned == Some(Primary)
        || primary.raises.value.Client?
      {
        return;
      }
      lastFallbackReason, activeProvider := primary.raises, Backup;
      heard, raised := Forward(id, Backup, backup.chunks);
      ending := EndOf(backup);
    }
  }

  /** A pin holds from the moment it is made, and pinning keeps all others but at most the oldest. */
  lemma PinKeeps(p: Pins, id: string, v: Voice)
    requires p.Valid()
    ensures var p' := Pin(p, id, v);
      && p'.Valid() && p'.Of(id) == (if id in p.voices then p.Of(id) else Some(v))
      && (forall k | k in p'.voices && k != id :: p.Of(k) == p'.Of(k))
      && (id in p.voices || |p.order| < 128 ==> forall k | k in p.voices :: p'.Of(k) == p.Of(k))
      && p'.voices.Keys <= p.voices.Keys + {id}
  {
    if id !in p.voices {
      if |p.order| < 128 { Appended(p, id, v); } else { OldestLeaves(p, id, v); }
    }
  }

  lemma Appended(p: Pins, id: string, v: Voice)
    requires p.Valid() && id !in p.voices && |p.order| < 128
    ensures Pins(p.order + [id], p.voices[id := v]).Valid()
  {
    assert forall k :: k in p.order + [id] <==> k in p.order || k == id;
  }

  lemma OldestLeaves(p: Pins, id: string, v: Voice)
    requires p.Valid() && id !in p.voices && |p.order| == 128
    ensures var order := p.order + [id];
      Pins(order[1..], p.voices[id := v] - {order[0]}).Valid() && order[0] != id
  {
    var oldest, rest := p.order[0], p.order[1..];
    assert p.order == [oldest] + rest;
    assert (p.order + [id])[1..] == rest + [id];
    RestDiffers(p.order);
    InAppended(rest, id);
    InPrepended(rest, oldest);
  }

  lemma RestDiffers(order: seq<string>)
    requires order != [] && forall i, j | 0 <= i < j < |order| :: order[i] != order[j]
    ensures order[0] in order && order[0] !in order[1..]
  {
    assert forall i | 0 <= i < |order| - 1 :: order[1..][i] == order[i + 1];
  }

  lemma InAppended(rest: seq<string>, last: string)
    ensures forall k :: k in rest + [last] <==> k in rest || k == last
  {
  }

  lemma InPrepended(rest: seq<string>, first: string)
    ensures forall k :: k in [first] + rest <==> k == first || k in rest
  {
  }

  // ----- series of requests -----

  datatype Request = Request(id: string, primary: Attempt, backup: Attempt)

  /** What is remembered after a series of requests, and all that was heard: response and voice. */
  function Serve(rs: seq<Request>): (Pins, seq<(string, Voice)>) {
    if rs == [] then (Pins([], map[]), [])
    else
      var (p, heard) := Serve(rs[..|rs| - 1]);
      var r := rs[|rs| - 1];
      var (p', voices, _) := Speak(p, r.id, r.primary, r.backup);
      (p', heard + Labelled(r.id, voices))
  }

  function Labelled(id: string, voices: seq<Voice>): (ls: seq<(string, Voice)>)
    ensures |ls| == |voices| && forall i | 0 <= i < |voices| :: ls[i] == (id, voices[i])
  {
    if voices == [] then [] else Labelled(id, voices[..|voices| - 1]) + [(id, voices[|voices| - 1])]
  }

  function Ids(rs: seq<Request>): (ids: set<string>)
    ensures forall r | r in rs :: r.id in ids
  {
    if rs == [] then {}
    else
      assert rs == rs[..|rs| - 1] + [rs[|rs| - 1]];
      Ids(rs[..|rs| - 1]) + {rs[|rs| - 1].id}
  }

  /** No request mixes providers, and none contradicts a pin. */
  lemma SpeakKeeps(p: Pins, id: string, primary: Attempt, backup: Attempt)
    requires p.Valid()
    ensures var (p', voices, ending) := Speak(p, id, primary, backup);
      && p'.Valid()
      && (forall v | v in voices :: p'.Of(id) == Some(v) && (p.Of(id).Some? ==> p.Of(id) == Some(v)))
      && (forall k | k in p'.voices && k != id :: p.Of(k) == p'.Of(k))
      && (id in p.voices || |p.order| < 128 ==> forall k | k in p.voices :: p'.Of(k) == p.Of(k))
      && p'.voices.Keys <= p.voices.Keys + {id}
  {
    hide Pin, Pins.Valid;
    PinKeeps(p, id, Primary);
    PinKeeps(p, id, Backup);
  }

  /** While at most 128 responses were served, each of them was heard in one voice only, whatever fails. */
  lemma {:induction false} OneVoice(rs: seq<Request>)
    ensures var (p, heard) := Serve(rs);
      && p.Valid() && p.voices.Keys <= Ids(rs)
      && (|Ids(rs)| <= 128 ==> forall h | h in heard :: p.Of(h.0) == Some(h.1))
  {
    if rs != [] {
      var front, r := rs[..|rs| - 1], rs[|rs| - 1];
      OneVoice(front);
      var (p, heard) := Serve(front);
      SpeakKeeps(p, r.id, r.primary, r.backup);
      var (p', voices, _) := Speak(p, r.id, r.primary, r.backup);
      if |Ids(rs)| <= 128 {
        Fewer(Ids(front), Ids(rs));
        if r.id !in p.voices { RoomLeft(p, Ids(rs), r.id); }
        forall h | h in Serve(rs).1 ensures p'.Of(h.0) == Some(h.1) {
          if h !in heard {
            var i :| 0 <= i < |voices| && h == Labelled(r.id, voices)[i];
            assert voices[i] in voices;
          }
        }
      }
    }
  }

  lemma Fewer<T>(a: set<T>, b: set<T>)
    requires a <= b
    ensures |a| <= |b|
  {
    assert b == a + (b - a);
  }

  lemma {:induction false} Distinct(order: seq<string>, ids: set<string>)
    requires forall i, j | 0 <= i < j < |order| :: order[i] != order[j]
    requires forall id | id in order :: id in ids
    ensures |order| <= |ids|
  {
    if order != [] {
      var last := order[|order| - 1];
      assert last in order;
      assert forall id | id in order[..|order| - 1] :: id in order && id != last;
      Distinct(order[..|order| - 1], ids - {last});
    }
  }

  /** A response that is not pinned yet finds fewer than all others pinned. */
  lemma RoomLeft(p: Pins, ids: set<string>, id: string)
    requires p.Valid() && p.voices.Keys <= ids && id in ids && id !in p.voices
    ensures |p.order| < |ids|
  {
    Distinct(p.order, ids - {id});
  }

  // ----- beyond the bound -----

  const Speaks := Attempt(1, None, false)
  const Fails := Attempt(0, Some(Temporary), false)

  /** One chunk each from the primary provider. */
  function Others(ids: seq<string>): seq<Request> {
    if ids == [] then [] else Others(ids[..|ids| - 1]) + [Request(ids[|ids| - 1], Speaks, Speaks)]
  }

  lemma SpokenOnce(p: Pins, id: string)
    requires p.Valid() && id !in p.voices
    ensures Speak(p, id, Speaks, Speaks).0 == Pin(p, id, Primary) && Speak(p, id, Speaks, Speaks).1 == [Primary]
    ensures Pin(p, id, Primary).order == if |p.order| < 128 then p.order + [id] else (p.order + [id])[1..]
  {
    assert Voiced(Primary, 1) == [Primary] by { assert Voiced(Primary, 0) == []; }
  }

  lemma OnePinnedMore(p: Pins, heard: seq<(string, Voice)>, rs: seq<Request>, id: string)
    requires Serve(rs) == (p, heard) && p.Valid() && id !in p.voices
    ensures Serve(rs + [Request(id, Speaks, Speaks)]) == (Pin(p, id, Primary), heard + [(id, Primary)])
    ensures Pin(p, id, Primary).Valid()
    ensures Pin(p, id, Primary).order == if |p.order| < 128 then p.order + [id] else (p.order + [id])[1..]
  {
    hide Pins.Valid;
    var all := rs + [Request(id, Speaks, Speaks)];
    assert all[..|all| - 1] == rs;
    SpokenOnce(p, id);
    PinKeeps(p, id, Primary);
    assert Labelled(id, [Primary]) == [(id, Primary)];
  }

  lemma {:induction false} OthersPinned(first: string, ids: seq<string>)
    requires |ids| <= 128 && first !in ids && forall i, j | 0 <= i < j < |ids| :: ids[i] != ids[j]
    ensures var (p, heard) := Serve([Request(first, Speaks, Speaks)] + Others(ids));
      && p.Valid() && heard != [] && heard[0] == (first, Primary)
      && p.order == if |ids| < 128 then [first] + ids else ids
  {
    hide Pin, Speak, Voiced, Labelled, Serve, Pins.Valid;
    var head := [Request(first, Speaks, Speaks)];
    if ids == [] {
      NothingServed();
      OnePinnedMore(Pins([], map[]), [], [], first);
      assert head + Others(ids) == [] + head;
    } else {
      var front, last := ids[..|ids| - 1], ids[|ids| - 1];
      OthersPinned(first, front);
      var rs := head + Others(front);
      var (p, heard) := Serve(rs);
      LastIsNew(p, first, ids);
      OnePinnedMore(p, heard, rs, last);
      assert head + Others(ids) == rs + [Request(last, Speaks, Speaks)];
    }
  }

  lemma LastIsNew(p: Pins, first: string, ids: seq<string>)
    requires p.Valid() && ids != [] && first !in ids && forall i, j | 0 <= i < j < |ids| :: ids[i] != ids[j]
    requires p.order == [first] + ids[..|ids| - 1]
    ensures ids[|ids| - 1] !in p.voices
    ensures p.order + [ids[|ids| - 1]] == [first] + ids && ([first] + ids)[1..] == ids
  {
    assert ids[|ids| - 1] !in p.order;
  }

  lemma NothingServed()
    ensures Serve([]) == (Pins([], map[]), []) && Pins([], map[]).Valid()
  {
  }

  /** The bound is exact: after 128 others a response is forgotten and may go on in another voice. */
  lemma Forgotten(first: string, ids: seq<string>)
    requires |ids| == 128 && first !in ids && forall i, j | 0 <= i < j < |ids| :: ids[i] != ids[j]
    ensures var rs := [Request(first, Speaks, Speaks)] + Others(ids) + [Request(first, Fails, Speaks)];
      (first, Primary) in Serve(rs).1 && (first, Backup) in Serve(rs).1
  {
    hide Serve, Pins.Valid;
    var front := [Request(first, Speaks, Speaks)] + Others(ids);
    OthersPinned(first, ids);
    var (p, heard) := Serve(front);
    assert first !in p.voices by { NotPinned(p, first); }
    SpokenByBackup(front, p, heard, first);
  }

  lemma NotPinned(p: Pins, id: string)
    requires p.Valid() && id !in p.order
    ensures id !in p.voices
  {
  }

  /** A response that is not pinned goes on in the backup's voice when the primary fails. */
  lemma SpokenByBackup(front: seq<Request>, p: Pins, heard: seq<(string, Voice)>, id: string)
    requires Serve(front) == (p, heard) && id !in p.voices
    ensures Serve(front + [Request(id, Fails, Speaks)]).1 == heard + [(id, Backup)]
  {
    hide Pin;
    var rs := front + [Request(id, Fails, Speaks)];
    assert rs[..|rs| - 1] == front;
    assert Voiced(Backup, 1) == [Backup] by { assert Voiced(Backup, 0) == []; }
    assert Labelled(id, [Backup]) == [(id, Backup)];
  }

  // ----- requests of many responses at once -----

  /** An open request: what was pinned when it was opened, who speaks, and whether anything was heard. */
  datatype Stream = Stream(pinned: Option<Voice>, voice: Voice, yielded: bool)

  /** All open requests of all sessions; `contradicted` records a chunk that its pin refused. */
  datatype Room = Room(pins: Pins, streams: map<string, Stream>, heard: seq<(string, Voice)>, contradicted: bool)

  /** What happens to one request between two suspension points. */
  datatype Event =
    | Opens(id: string)
    | Yields(id: string)
    | Breaks(id: string, failure: Failure, cancelled: bool)
    | Closes(id: string)

  /** A session has one request at a time for its response; any number of sessions speak at once. */
  predicate Enabled(r: Room, e: Event) { if e.Opens? then e.id !in r.streams else e.id in r.streams }

  predicate SwitchesOver(s: Stream, e: Event)
    requires e.Breaks?
  {
    s.voice.Primary? && TakesOver(s.pinned, Attempt(if s.yielded then 1 else 0, Some(e.failure), e.cancelled))
  }

  function Happens(r: Room, e: Event): Room
    requires Enabled(r, e)
  {
    match e
    case Opens(id) =>
      var pinned := r.pins.Of(id);
      r.(streams := r.streams[id := Stream(pinned, if pinned == Some(Backup) then Backup else Primary, false)])
    case Yields(id) =>
      var s := r.streams[id];
      var now := r.pins.Of(id);
      if s.pinned != Some(Backup) && now.Some? && now != Some(s.voice)
      then r.(streams := r.streams - {id}, contradicted := true)
      else r.(pins := if s.pinned == Some(Backup) then r.pins else Pin(r.pins, id, s.voice),
              streams := r.streams[id := s.(yielded := true)],
              heard := r.heard + [(id, s.voice)])
    case Breaks(id, _, _) =>
      if SwitchesOver(r.streams[id], e) then r.(streams := r.streams[id := r.streams[id].(voice := Backup)])
      else r.(streams := r.streams - {id})
    case Closes(id) => r.(streams := r.streams - {id})
  }

  predicate Feasible(r: Room, es: seq<Event>)
    decreases es
  {
    es == [] || (Enabled(r, es[0]) && Feasible(Happens(r, es[0]), es[1..]))
  }

  function Run(r: Room, es: seq<Event>): Room
    requires Feasible(r, es)
    decreases es
  {
    if es == [] then r else Run(Happens(r, es[0]), es[1..])
  }

  const Silence := Room(Pins([], map[]), map[], [], false)

  /** A pin never contradicts the request that is open, and the backup only starts where nothing is pinned. */
  predicate StreamFits(pins: Pins, id: string, s: Stream) {
    && pins.Of(id) in {None, Some(s.voice)}
    && s.pinned in {None, Some(Primary), Some(Backup)}
    && (s.pinned == Some(Primary) ==> s.voice.Primary?)
    && (s.pinned == Some(Backup) ==> s.voice.Backup?)
    && (s.pinned.None? && !s.yielded ==> pins.Of(id).None?)
  }

  /** `ids` are the responses there are; up to 128 of them, whatever was heard is still pinned. */
  ghost predicate Steady(r: Room, ids: set<string>) {
    && r.pins.Valid() && r.pins.voices.Keys <= ids
    && (forall id | id in r.streams :: StreamFits(r.pins, id, r.streams[id]))
    && !r.contradicted
    && (|ids| <= 128 ==>
          && (forall h | h in r.heard :: r.pins.Of(h.0) == Some(h.1))
          && (forall id | id in r.streams && r.streams[id].pinned.Some? :: r.pins.Of(id) == r.streams[id].pinned))
  }

  lemma YieldKeeps(r: Room, id: string, ids: set<string>)
    requires Steady(r, ids) && id in r.streams && id in ids
    ensures Steady(Happens(r, Yields(id)), ids)
  {
    hide Pin, Pins.Valid;
    var s := r.streams[id];
    PinKeeps(r.pins, id, s.voice);
    if id !in r.pins.voices { RoomLeft(r.pins, ids, id); }
    var r' := Happens(r, Yields(id));
    forall k | k in r'.streams ensures StreamFits(r'.pins, k, r'.streams[k]) {
      assert StreamFits(r.pins, k, r.streams[k]);
    }
  }

  lemma HappensKeeps(r: Room, e: Event, ids: set<string>)
    requires Steady(r, ids) && Enabled(r, e) && e.id in ids
    ensures Steady(Happens(r, e), ids)
  {
    hide Pin, Pins.Valid;
    if e.Yields? {
      YieldKeeps(r, e.id, ids);
    } else {
      var r' := Happens(r, e);
      forall k | k in r'.streams ensures StreamFits(r'.pins, k, r'.streams[k]) {
        assert k in r.streams ==> StreamFits(r.pins, k, r.streams[k]);
      }
    }
  }

  lemma {:induction false} RunSteady(r: Room, es: seq<Event>, ids: set<string>)
    requires Steady(r, ids) && Feasible(r, es) && forall e | e in es :: e.id in ids
    ensures Steady(Run(r, es), ids)
    decreases es
  {
    hide Steady, Happens;
    if es != [] {
      HappensKeeps(r, es[0], ids);
      RunSteady(Happens(r, es[0]), es[1..], ids);
    }
  }

  /**
   * However the requests of many responses interleave, no chunk is refused by its pin; and for at most
   * 128 responses each of them is heard in one voice only.
   */
  lemma OneVoiceInterleaved(es: seq<Event>, ids: set<string>)
    requires Feasible(Silence, es) && forall e | e in es :: e.id in ids
    ensures var r := Run(Silence, es);
      && !r.contradicted
      && (|ids| <= 128 ==> forall g, h | g in r.heard && h in r.heard && g.0 == h.0 :: g.1 == h.1)
  {
    hide Happens, Enabled;
    RunSteady(Silence, es, ids);
  }

  // ----- one request by itself -----

  function Repeated(e: Event, n: nat): seq<Event> { if n == 0 then [] else [e] + Repeated(e, n - 1) }

  /** The events of one request, when it is served without anything in between. */
  function Script(pinned: Option<Voice>, id: string, primary: Attempt, backup: Attempt): seq<Event> {
    if pinned == Some(Backup) then [Opens(id)] + Served(id, backup)
    else if TakesOver(pinned, primary) then
      [Opens(id)] + ([Breaks(id, primary.raises.value, false)] + Served(id, backup))
    else [Opens(id)] + Served(id, primary)
  }

  function Served(id: string, a: Attempt): seq<Event> {
    Repeated(Yields(id), a.chunks) + [if a.raises.Some? then Breaks(id, a.raises.value, a.cancelled) else Closes(id)]
  }

  lemma RunFirst(r: Room, e: Event, es: seq<Event>)
    requires Enabled(r, e) && Feasible(Happens(r, e), es)
    ensures Feasible(r, [e] + es) && Run(r, [e] + es) == Run(Happens(r, e), es)
  {
    hide Happens, Enabled;
    assert ([e] + es)[1..] == es;
  }

  /** Where a stream stands after some more chunks. */
  function Further(r: Room, id: string, n: nat): Room
    requires id in r.streams
  {
    var s := r.streams[id];
    if n == 0 then r
    else Room(if s.pinned == Some(Backup) then r.pins else Pin(r.pins, id, s.voice),
              r.streams[id := s.(yielded := true)], r.heard + Labelled(id, Voiced(s.voice, n)), r.contradicted)
  }

  lemma YieldsOne(r: Room, id: string)
    requires r.pins.Valid() && id in r.streams && StreamFits(r.pins, id, r.streams[id])
    ensures var r1 := Happens(r, Yields(id));
      && Enabled(r, Yields(id)) && r1 == Further(r, id, 1)
      && r1.pins.Valid() && id in r1.streams && StreamFits(r1.pins, id, r1.streams[id])
  {
    hide Pin, Pins.Valid;
    var s := r.streams[id];
    PinKeeps(r.pins, id, s.voice);
    assert Labelled(id, Voiced(s.voice, 1)) == [(id, s.voice)];
  }

  lemma FurtherTwice(r: Room, id: string, n: nat)
    requires r.pins.Valid() && id in r.streams
    ensures Further(Further(r, id, 1), id, n) == Further(r, id, n + 1)
  {
    hide Labelled, Voiced;
    var s := r.streams[id];
    PinKeeps(r.pins, id, s.voice);
    LabelledFirst(id, s.voice, n + 1);
    LabelledFirst(id, s.voice, 1);
    assert Labelled(id, Voiced(s.voice, 0)) == [] && [(id, s.voice)] + [] == [(id, s.voice)];
    assert r.heard + [(id, s.voice)] + Labelled(id, Voiced(s.voice, n))
        == r.heard + ([(id, s.voice)] + Labelled(id, Voiced(s.voice, n)));
  }

  lemma {:induction false} YieldsMany(r: Room, id: string, n: nat, es: seq<Event>)
    requires r.pins.Valid() && id in r.streams && StreamFits(r.pins, id, r.streams[id])
    requires Feasible(Further(r, id, n), es)
    ensures Feasible(r, Repeated(Yields(id), n) + es)
    ensures Run(r, Repeated(Yields(id), n) + es) == Run(Further(r, id, n), es)
    decreases n
  {
    hide Happens, StreamFits, Pins.Valid, Pin, Labelled, Voiced, Enabled, Feasible, Run;
    if n == 0 {
      assert Repeated(Yields(id), 0) + es == es;
    } else {
      YieldsOne(r, id);
      FurtherTwice(r, id, n - 1);
      YieldsMany(Happens(r, Yields(id)), id, n - 1, es);
      RunFirst(r, Yields(id), Repeated(Yields(id), n - 1) + es);
      assert Repeated(Yields(id), n) + es == [Yields(id)] + (Repeated(Yields(id), n - 1) + es);
    }
  }

  /** A request that may speak and then ends: its chunks are pinned and heard in its one voice. */
  lemma ServedRun(r: Room, id: string, a: Attempt)
    requires r.pins.Valid() && id in r.streams && StreamFits(r.pins, id, r.streams[id])
    requires a.chunks == 0 && a.raises.Some? ==> !SwitchesOver(r.streams[id], Breaks(id, a.raises.value, a.cancelled))
    ensures Feasible(r, Served(id, a))
    ensures var s := r.streams[id];
      Run(r, Served(id, a))
      == Room(if a.chunks > 0 && s.pinned != Some(Backup) then Pin(r.pins, id, s.voice) else r.pins,
              r.streams - {id}, r.heard + Labelled(id, Voiced(s.voice, a.chunks)), r.contradicted)
  {
    hide Pin, Pins.Valid;
    var last := if a.raises.Some? then Breaks(id, a.raises.value, a.cancelled) else Closes(id);
    var r1 := Further(r, id, a.chunks);
    RunFirst(r1, last, []);
    assert [last] + [] == [last];
    YieldsMany(r, id, a.chunks, [last]);
    assert r1.streams - {id} == r.streams - {id};
    assert a.chunks == 0 ==> r.heard + Labelled(id, Voiced(r.streams[id].voice, 0)) == r.heard;
  }

  lemma LabelledFirst(id: string, v: Voice, n: nat)
    requires n >= 1
    ensures Labelled(id, Voiced(v, n)) == [(id, v)] + Labelled(id, Voiced(v, n - 1))
  {
  }

  /** Served alone, a request does in the room what it is specified to do. */
  lemma ScriptSpeaks(r: Room, id: string, primary: Attempt, backup: Attempt)
    requires r.pins.Valid() && id !in r.streams
    ensures var (pins, voices, _) := Speak(r.pins, id, primary, backup);
      var es := Script(r.pins.Of(id), id, primary, backup);
      Feasible(r, es) && Run(r, es) == Room(pins, r.streams, r.heard + Labelled(id, voices), r.contradicted)
  {
    hide Pin, Labelled, Voiced, Pins.Valid, Served, Feasible, Run;
    var pinned := r.pins.Of(id);
    var r1 := Happens(r, Opens(id));
    assert r1.streams - {id} == r.streams;
    if pinned == Some(Backup) {
      ServedRun(r1, id, backup);
      RunFirst(r, Opens(id), Served(id, backup));
    } else if TakesOver(pinned, primary) {
      var e := Breaks(id, primary.raises.value, false);
      var r2 := Happens(r1, e);
      assert r2.streams - {id} == r.streams;
      ServedRun(r2, id, backup);
      RunFirst(r1, e, Served(id, backup));
      RunFirst(r, Opens(id), [e] + Served(id, backup));
    } else {
      ServedRun(r1, id, primary);
      RunFirst(r, Opens(id), Served(id, primary));
    }
  }
}
