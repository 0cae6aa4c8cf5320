/** Addresses, frames and constants of the Companion relay. */
module Osc {
  import opened OrderedDict

  // The first argument of an OSC message. A text carries what Python's `int()` reads in it.
  datatype Arg = NoArg | Flag(on: bool) | Int(n: int) | Text(s: string, number: Option<int>)

  const STATUS_PREFIX := "/engine/status/"
  const LINK_PATH := "/cuems/bridge/engine_connected"
  const STARTED_PREFIX := "/cuems/bridge/cue_started/"
  const ENDED_PREFIX := "/cuems/bridge/cue_ended/"

  // Clock readings and durations are integers, in microseconds.
  const EDGE_SUPPRESS := 2_000_000
  const PULSE_GAP := 60_000
  const PULSE_HOLD := 150_000
  const EVENT_CAP := 6000
  const HOLD_CAP := 20000
  const CACHE_CAP := 20000

  function StatusAddress(key: string): string {
    STATUS_PREFIX + key
  }

  function CueKey(uuid: string): string {
    "cue/" + uuid
  }

  function CueAddress(uuid: string): string {
    StatusAddress(CueKey(uuid))
  }

  predicate IsCue(key: string) {
    "cue/" <= key
  }

  predicate PerCue(key: string) {
    "cue/" <= key || "cue_enabled/" <= key || "cue_name/" <= key
  }

  // What follows the first "/" of a per-cue key.
  function CueOf(key: string): string
    requires PerCue(key)
  {
    if "cue/" <= key then key[4..] else if "cue_enabled/" <= key then key[12..] else key[9..]
  }

  predicate Playing(v: int) {
    1 <= v <= 99
  }

  function AsInt(a: Arg): Option<int> {
    match a
    case NoArg => None
    case Flag(_) => None
    case Int(n) => Some(n)
    case Text(_, number) => number
  }

  // str(v), or "" for a missing argument.
  function Str(a: Arg): string {
    match a
    case NoArg => ""
    case Flag(on) => if on then "True" else "False"
    case Int(n) => Decimal(n)
    case Text(s, _) => s
  }

  function Decimal(n: int): (s: string)
    ensures s != ""
    decreases if n < 0 then 1 - n else n
  {
    if n < 0 then "-" + Decimal(-n)
    else (if n < 10 then "" else Decimal(n / 10)) + ["0123456789"[n % 10]]
  }

  // The forwarding filter: a configured key that ends in "/" is a prefix, any other is exact.
  datatype Config = Config(keys: seq<string>, rate: nat)

  predicate EndsInSlash(k: string) {
    k != "" && k[|k| - 1] == '/'
  }

  predicate MatchesKey(k: string, key: string) {
    if EndsInSlash(k) then k <= key else k == key
  }

  predicate Matches(cfg: Config, key: string) {
    exists k :: k in cfg.keys && MatchesKey(k, key)
  }

  lemma StatusAddressFacts(key: string)
    ensures STATUS_PREFIX <= StatusAddress(key)
    ensures StatusAddress(key)[|STATUS_PREFIX|..] == key
    ensures StatusAddress(key) != LINK_PATH
  {
    assert StatusAddress(key)[1] == 'e' && LINK_PATH[1] == 'c';
  }

  lemma StatusAddressOf(address: string)
    requires STATUS_PREFIX <= address
    ensures address == StatusAddress(address[|STATUS_PREFIX|..])
  {}

  lemma CueAddressFacts(uuid: string)
    ensures IsCue(CueKey(uuid)) && PerCue(CueKey(uuid)) && CueOf(CueKey(uuid)) == uuid
    ensures CueKey(uuid) != "load"
  {
    assert CueKey(uuid)[0] == 'c';
  }

  lemma LoadIsNotPerCue()
    ensures !PerCue("load")
  {
    assert "load"[0] == 'l' && "cue/"[0] == 'c' && "cue_enabled/"[0] == 'c' && "cue_name/"[0] == 'c';
  }

  lemma PulsePaths(u: string, w: string)
    ensures STARTED_PREFIX + u == STARTED_PREFIX + w ==> u == w
    ensures ENDED_PREFIX + u == ENDED_PREFIX + w ==> u == w
    ensures STARTED_PREFIX + u != ENDED_PREFIX + w
  {
    assert (STARTED_PREFIX + u)[|STARTED_PREFIX|..] == u && (STARTED_PREFIX + w)[|STARTED_PREFIX|..] == w;
    assert (ENDED_PREFIX + u)[|ENDED_PREFIX|..] == u && (ENDED_PREFIX + w)[|ENDED_PREFIX|..] == w;
    assert (STARTED_PREFIX + u)[18] == 's' && (ENDED_PREFIX + w)[18] == 'e';
  }

  // "cue/" among the keys covers every cue; only "cue/" itself can.
  lemma CueConfigured(cfg: Config, uuid: string)
    requires Matches(cfg, "cue/")
    ensures Matches(cfg, CueKey(uuid))
  {
    var k :| k in cfg.keys && MatchesKey(k, "cue/");
    assert EndsInSlash("cue/");
    assert k <= CueKey(uuid) && MatchesKey(k, CueKey(uuid));
  }
}
