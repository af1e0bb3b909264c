/**
 The battery shunt's cached readings: a reply to a read is applied only while nothing was observed since
 the read began. The token names the source and the latest observation.
 */
module Shunt {
  import opened Prelude

  datatype Key = Voltage | Current | Power

  datatype Path = Connected | Reading(key: Key) | OtherPath

  datatype Token = Token(service: Option<string>, generation: nat)

  datatype State = State(service: Option<string>, generation: nat, connected: Option<bool>, values: map<Key, real>,
                         times: map<Key, real>)

  function Init(): State {
    State(None, 0, None, map[], map[])
  }

  function TokenOf(s: State): Token {
    Token(s.service, s.generation)
  }

  /** Invalidates the cached readings and any older read still in flight. */
  function Clear(s: State): State {
    s.(generation := s.generation + 1, values := map[], times := map[])
  }

  const KEYS: set<Key> := {Voltage, Current, Power}

  function Accept(s: State, values: map<Key, real>, now: real): State {
    if s.connected == Some(false) then Clear(s)
    else s.(generation := s.generation + 1, values := values, times := map key | key in KEYS :: now)
  }

  function Commit(s: State, token: Token, connected: Option<bool>, values: map<Key, real>, now: real): (State, bool) {
    if token != TokenOf(s) then (s, false)
    else
      var noted := s.(connected := connected);
      (if values == map[] then Clear(noted) else Accept(noted, values, now), true)
  }

  /** A voltage that is not positive is no reading; power is shown in whole watts. */
  function Observed(key: Key, raw: Option<real>): Option<real> {
    if key.Voltage? && raw.Some? && raw.value <= 0.0 then None
    else if key.Power? && raw.Some? then Some(Round(raw.value) as real)
    else raw
  }

  function Signal(s: State, service: Option<string>, path: Path, raw: Option<real>, now: real): State {
    if service.None? || service != s.service then s
    else
      match path
      case Connected =>
        var noted := s.(generation := s.generation + 1, connected := Some(raw == Some(1.0)));
        if raw == Some(1.0) then noted else Clear(noted)
      case Reading(key) =>
        var noted := s.(generation := s.generation + 1);
        if s.connected == Some(false) then noted
        else
          var value := Observed(key, raw);
          noted.(values := if value.Some? then s.values[key := value.value] else s.values - {key},
                 times := s.times[key := now])
      case OtherPath => s
  }

  function OwnerLost(s: State, service: string): State {
    if Some(service) == s.service then Clear(s.(connected := Some(false))) else s
  }

  function Select(s: State, service: Option<string>): State {
    if service == s.service then s else Clear(s).(service := service, connected := None)
  }

  datatype Event =
    | Replied(token: Token, connected: Option<bool>, values: map<Key, real>, now: real)
    | Signalled(service: Option<string>, path: Path, raw: Option<real>, now: real)
    | Lost(owner: string)
    | Selected(selected: Option<string>)

  function Step(s: State, e: Event): State {
    match e
    case Replied(token, connected, values, now) => Commit(s, token, connected, values, now).0
    case Signalled(service, path, raw, now) => Signal(s, service, path, raw, now)
    case Lost(owner) => OwnerLost(s, owner)
    case Selected(service) => Select(s, service)
  }

  function Run(s: State, events: seq<Event>): State {
    if events == [] then s else Step(Run(s, events[..|events| - 1]), events[|events| - 1])
  }

  /** Whatever changes anything moves the generation on. */
  lemma {:induction false} GenerationMarksEveryChange(s: State, events: seq<Event>)
    ensures Run(s, events).generation >= s.generation
    ensures Run(s, events).generation == s.generation ==> Run(s, events) == s
    decreases |events|
  {
    if events != [] { GenerationMarksEveryChange(s, events[..|events| - 1]); }
  }

  /** A reply is applied exactly when the state is still the very one its read began in: no signal,
      disconnect, source change or other reply came between, even one that was undone again. */
  lemma ReplyAppliedIffUndisturbed(s: State, events: seq<Event>, connected: Option<bool>, values: map<Key, real>,
                                   now: real)
    ensures Commit(Run(s, events), TokenOf(s), connected, values, now).1 <==> Run(s, events) == s
    ensures Run(s, events) != s ==> Commit(Run(s, events), TokenOf(s), connected, values, now).0 == Run(s, events)
  {
    GenerationMarksEveryChange(s, events);
  }

  /** A shunt known to be disconnected shows no reading, whatever replies and signals arrive. */
  lemma {:induction false} DisconnectedShowsNothing(events: seq<Event>)
    ensures Run(Init(), events).connected == Some(false) ==> Run(Init(), events).values == map[]
    decreases |events|
  {
    if events != [] { DisconnectedShowsNothing(events[..|events| - 1]); }
  }

  class ShuntCache {
    var service: Option<string>
    var generation: nat
    var connected: Option<bool>
    var values: map<Key, real>
    var times: map<Key, real>

    ghost function Abs(): State
      reads this
    {
      State(service, generation, connected, values, times)
    }

    constructor ()
      ensures Abs() == Init()
    {
      service, generation, connected, values, times := None, 0, None, map[], map[];
    }

    method ClearData()
      modifies `generation, `values, `times
      ensures Abs() == Clear(old(Abs()))
    {
      generation := generation + 1;
      values, times := map[], map[];
    }

    method CommitSnapshot(token: Token, connected: Option<bool>, values: map<Key, real>, now: real)
        returns (applied: bool)
      modifies `generation, `connected, `values, `times
      ensures (Abs(), applied) == Commit(old(Abs()), token, connected, values, now)
    {
      if token != Token(service, generation) { return false; }
      this.connected := connected;
      if values == map[] || connected == Some(false) {
        ClearData();
      } else {
        generation := generation + 1;
        this.values, times := values, map key | key in KEYS :: now;
      }
      return true;
    }
  }
}
