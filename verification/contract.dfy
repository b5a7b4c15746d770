/** The one table of cabinet calls: building a path from an endpoint and its parameters, and
    finding both again from the path. */
module Contract {
  import opened Quantities

  datatype Verb = Get | Post
  datatype IdType = NoId | Pk | PkOrDisplay

  /** The fixed words of the paths. */
  datatype Word =
    | Api | Ext | Acknowledge | Active | Alarms | Allow | Analytics | Berths | Breaker | Breakers | Cmd | Config
    | Consumption | Controls | Daily | Deny | Diagnostics | Health | History | Load | Marinas | Occupancy
    | Pedestal | Pedestals | Pending | ReferenceImage | Run | Sessions | SocketWord | Sockets | Status | Stop
    | Summary | Usage | Valves | WaterWord

  function Text(w: Word): string {
    match w
    case Api => "api" case Ext => "ext" case Acknowledge => "acknowledge" case Active => "active"
    case Alarms => "alarms" case Allow => "allow" case Analytics => "analytics" case Berths => "berths"
    case Breaker => "breaker" case Breakers => "breakers" case Cmd => "cmd" case Config => "config"
    case Consumption => "consumption" case Controls => "controls" case Daily => "daily" case Deny => "deny"
    case Diagnostics => "diagnostics" case Health => "health" case History => "history" case Load => "load"
    case Marinas => "marinas" case Occupancy => "occupancy" case Pedestal => "pedestal" case Pedestals => "pedestals"
    case Pending => "pending" case ReferenceImage => "reference-image" case Run => "run" case Sessions => "sessions"
    case SocketWord => "socket" case Sockets => "sockets" case Status => "status" case Stop => "stop"
    case Summary => "summary" case Usage => "usage" case Valves => "valves" case WaterWord => "water"
  }

  datatype Name = PedestalId | SocketId | MarinaId | AlarmId | SocketName | ValveName | SessionId | BerthId

  datatype Part = Lit(w: Word) | Param(name: Name)

  datatype Key =
    | PedestalsHealth | PedestalsList | PedestalsStatusExt | WaterStatusExt | BerthsList | BerthsOccupancyExt
    | SessionsActive | SessionsPending | AlarmsActive | AlarmsAcknowledge | AnalyticsDaily | AnalyticsSummary
    | SocketsConfigList | ValvesConfigList | LoadPedestalGetExt | LoadSocketGetExt | LoadSocketHistoryExt
    | LoadPedestalAlarmsExt | LoadMarinaAlarmsExt | BreakersPedestalListExt | BreakersSocketGetExt
    | BreakersPedestalHistoryExt | BreakersMarinaAlarmsExt | UsageHistory | ControlsSocketCmd | ControlsWaterCmd
    | ControlsAllow | ControlsDeny | ControlsStop | DiagnosticsRun | BerthsPushImageExt

  /** The table, in its order. */
  const TABLE: seq<Key> := [
    PedestalsHealth, PedestalsList, PedestalsStatusExt, WaterStatusExt, BerthsList, BerthsOccupancyExt,
    SessionsActive, SessionsPending, AlarmsActive, AlarmsAcknowledge, AnalyticsDaily, AnalyticsSummary,
    SocketsConfigList, ValvesConfigList, LoadPedestalGetExt, LoadSocketGetExt, LoadSocketHistoryExt,
    LoadPedestalAlarmsExt, LoadMarinaAlarmsExt, BreakersPedestalListExt, BreakersSocketGetExt,
    BreakersPedestalHistoryExt, BreakersMarinaAlarmsExt, UsageHistory, ControlsSocketCmd, ControlsWaterCmd,
    ControlsAllow, ControlsDeny, ControlsStop, DiagnosticsRun, BerthsPushImageExt]

  function MethodOf(k: Key): Verb {
    if k.AlarmsAcknowledge? || k.ControlsSocketCmd? || k.ControlsWaterCmd? || k.ControlsAllow? || k.ControlsDeny?
       || k.ControlsStop? || k.DiagnosticsRun? || k.BerthsPushImageExt? then Post
    else Get
  }

  function IdTypeOf(k: Key): IdType {
    if k.PedestalsStatusExt? || k.WaterStatusExt? || k.BerthsOccupancyExt? || k.BerthsPushImageExt? then PkOrDisplay
    else if k.SocketsConfigList? || k.ValvesConfigList? || k.LoadPedestalGetExt? || k.LoadSocketGetExt?
       || k.LoadSocketHistoryExt? || k.LoadPedestalAlarmsExt? || k.BreakersPedestalListExt? || k.BreakersSocketGetExt?
       || k.BreakersPedestalHistoryExt? || k.UsageHistory? || k.ControlsSocketCmd? || k.ControlsWaterCmd?
       || k.DiagnosticsRun? then Pk
    else NoId
  }

  const P := Param(PedestalId)

  /** The catalog path: /api/... for the gateway's family, /api/ext/... for the direct one. */
  function Catalog(k: Key): seq<Part> {
    match k
    case PedestalsHealth => [Lit(Api), Lit(Pedestals), Lit(Health)]
    case PedestalsList => [Lit(Api), Lit(Pedestals)]
    case PedestalsStatusExt => [Lit(Api), Lit(Ext), Lit(Pedestals), P, Lit(Status)]
    case WaterStatusExt => [Lit(Api), Lit(Ext), Lit(Pedestals), P, Lit(WaterWord)]
    case BerthsList => [Lit(Api), Lit(Berths)]
    case BerthsOccupancyExt => [Lit(Api), Lit(Ext), Lit(Pedestals), P, Lit(Berths), Lit(Occupancy)]
    case SessionsActive => [Lit(Api), Lit(Sessions), Lit(Active)]
    case SessionsPending => [Lit(Api), Lit(Sessions), Lit(Pending)]
    case AlarmsActive => [Lit(Api), Lit(Alarms), Lit(Active)]
    case AlarmsAcknowledge => [Lit(Api), Lit(Alarms), Param(AlarmId), Lit(Acknowledge)]
    case AnalyticsDaily => [Lit(Api), Lit(Analytics), Lit(Consumption), Lit(Daily)]
    case AnalyticsSummary => [Lit(Api), Lit(Analytics), Lit(Sessions), Lit(Summary)]
    case SocketsConfigList => [Lit(Api), Lit(Pedestals), P, Lit(Sockets), Lit(Config)]
    case ValvesConfigList => [Lit(Api), Lit(Pedestals), P, Lit(Valves), Lit(Config)]
    case LoadPedestalGetExt => [Lit(Api), Lit(Ext), Lit(Pedestals), P, Lit(Load)]
    case LoadSocketGetExt => [Lit(Api), Lit(Ext), Lit(Pedestals), P, Lit(Sockets), Param(SocketId), Lit(Load)]
    case LoadSocketHistoryExt =>
      [Lit(Api), Lit(Ext), Lit(Pedestals), P, Lit(Sockets), Param(SocketId), Lit(Load), Lit(History)]
    case LoadPedestalAlarmsExt => [Lit(Api), Lit(Ext), Lit(Pedestals), P, Lit(Load), Lit(Alarms)]
    case LoadMarinaAlarmsExt => [Lit(Api), Lit(Ext), Lit(Marinas), Param(MarinaId), Lit(Load), Lit(Alarms)]
    case BreakersPedestalListExt => [Lit(Api), Lit(Ext), Lit(Pedestals), P, Lit(Breakers)]
    case BreakersSocketGetExt => [Lit(Api), Lit(Ext), Lit(Pedestals), P, Lit(Sockets), Param(SocketId), Lit(Breaker)]
    case BreakersPedestalHistoryExt => [Lit(Api), Lit(Ext), Lit(Pedestals), P, Lit(Breaker), Lit(History)]
    case BreakersMarinaAlarmsExt => [Lit(Api), Lit(Ext), Lit(Marinas), Param(MarinaId), Lit(Breaker), Lit(Alarms)]
    case UsageHistory => [Lit(Api), Lit(Pedestals), P, Lit(Usage), Lit(History)]
    case ControlsSocketCmd => [Lit(Api), Lit(Controls), Lit(Pedestal), P, Lit(SocketWord), Param(SocketName), Lit(Cmd)]
    case ControlsWaterCmd => [Lit(Api), Lit(Controls), Lit(Pedestal), P, Lit(WaterWord), Param(ValveName), Lit(Cmd)]
    case ControlsAllow => [Lit(Api), Lit(Controls), Param(SessionId), Lit(Allow)]
    case ControlsDeny => [Lit(Api), Lit(Controls), Param(SessionId), Lit(Deny)]
    case ControlsStop => [Lit(Api), Lit(Controls), Param(SessionId), Lit(Stop)]
    case DiagnosticsRun => [Lit(Api), Lit(Pedestals), P, Lit(Diagnostics), Lit(Run)]
    case BerthsPushImageExt =>
      [Lit(Api), Lit(Ext), Lit(Pedestals), P, Lit(Berths), Param(BerthId), Lit(ReferenceImage)]
  }

  /** The external path: `ext` put in after `api`, unless it is there. */
  function External(c: seq<Part>): seq<Part>
    requires c != []
  {
    if |c| > 1 && c[1] == Lit(Ext) then c else [Lit(Api), Lit(Ext)] + c[1..]
  }

  /** An entry of the table, as building and matching read it. */
  datatype Endpoint = Endpoint(verb: Verb, idType: IdType, template: seq<Part>)

  function EndpointOf(k: Key): Endpoint { Endpoint(MethodOf(k), IdTypeOf(k), External(Catalog(k))) }

  /** A parameter's value as its text, and what it is in the caller: a proper integer (a bool is not one), a string,
      or anything else. */
  datatype Value = Whole(text: string) | Str(text: string) | Other(text: string)

  predicate EndsLine(s: string) { s != "" && s[|s| - 1] == '\n' }

  /** Q1-Q4 or V1-V2. The pattern's `$` also stands before a closing line feed. */
  predicate OutletName(s: string) {
    var name := if EndsLine(s) then s[..|s| - 1] else s;
    |name| == 2 && ((name[0] == 'Q' && '1' <= name[1] <= '4') || (name[0] == 'V' && '1' <= name[1] <= '2'))
  }

  function Names(t: seq<Part>): set<Name> { set p | p in t && p.Param? :: p.name }

  /** The contract lets the call be built: exactly its parameters, a numeric PK, an outlet's name. */
  predicate Admissible(ep: Endpoint, params: map<Name, Value>) {
    && params.Keys == Names(ep.template)
    && (ep.idType == Pk && PedestalId in params ==> params[PedestalId].Whole?)
    && (SocketName in params ==> params[SocketName].Str? && OutletName(params[SocketName].text))
    && (ValveName in params ==> params[ValveName].Str? && OutletName(params[ValveName].text))
  }

  function TextOf(p: Part, params: map<Name, Value>): string {
    if p.Lit? then Text(p.w) else if p.name in params then params[p.name].text else ""
  }

  /** The parts' texts, each parameter replaced by its value. */
  function Filled(parts: seq<Part>, params: map<Name, Value>): (r: seq<string>)
    ensures |r| == |parts| && forall i :: 0 <= i < |parts| ==> r[i] == TextOf(parts[i], params)
  {
    if parts == [] then [] else [TextOf(parts[0], params)] + Filled(parts[1..], params)
  }

  function Path(segments: seq<string>): (r: string)
    ensures r == "" <==> segments == []
    ensures r != "" ==> r[0] == '/'
  {
    if segments == [] then "" else "/" + segments[0] + Path(segments[1..])
  }

  /** Build a path, or refuse what the contract forbids. */
  function BuildPath(ep: Endpoint, params: map<Name, Value>): Option<string> {
    if Admissible(ep, params) then Some(Path(Filled(ep.template, params))) else None
  }

  /** The names an outlet may have; the pattern lets a line feed follow one. */
  predicate Outlet(name: string) { name in {"Q1", "Q2", "Q3", "Q4", "V1", "V2"} }

  lemma OutletNames(s: string)
    ensures OutletName(s) <==> Outlet(s) || exists name :: Outlet(name) && s == name + "\n"
  {
    hide Outlet;
    NameIs(s);
    if EndsLine(s) {
      var name := s[..|s| - 1];
      assert s == name + "\n";
      NameIs(name);
    }
  }

  lemma NameIs(name: string)
    ensures Outlet(name) <==>
      |name| == 2 && ((name[0] == 'Q' && '1' <= name[1] <= '4') || (name[0] == 'V' && '1' <= name[1] <= '2'))
  {
    if |name| == 2 {
      assert name == [name[0], name[1]];
    }
  }

  ghost predicate NamesAnOutlet(v: Value) {
    v.Str? && (Outlet(v.text) || exists name :: Outlet(name) && v.text == name + "\n")
  }

  /** A call is refused exactly when a parameter of its path is missing or one it does not have is given,
      when a pedestal's number is asked for and something else given, or when a socket's or valve's name is
      not an outlet's. */
  lemma RefusedWhen(ep: Endpoint, params: map<Name, Value>)
    ensures BuildPath(ep, params).None? <==>
      || (exists n: Name :: (n in params) != (Param(n) in ep.template))
      || (ep.idType == Pk && PedestalId in params && !params[PedestalId].Whole?)
      || (exists n: Name :: n in params && (n == SocketName || n == ValveName) && !NamesAnOutlet(params[n]))
  {
    assert forall n: Name :: n in Names(ep.template) <==> Param(n) in ep.template;
    forall n: Name | n in params && params[n].Str?
      ensures NamesAnOutlet(params[n]) <==> OutletName(params[n].text)
    {
      OutletNames(params[n].text);
    }
  }

  // ----- reading a path -----

  /** The path's segments, each after its slash. */
  function Segments(path: string): seq<string> {
    if path == "" || path[0] != '/' then []
    else
      var n := SegmentEnd(path[1..]);
      [path[1..][..n]] + Segments(path[1..][n..])
  }

  function SegmentEnd(s: string): (n: nat)
    ensures n <= |s|
    ensures forall i :: 0 <= i < n ==> s[i] != '/'
    ensures n < |s| ==> s[n] == '/'
  {
    if s == "" || s[0] == '/' then 0 else 1 + SegmentEnd(s[1..])
  }

  predicate MatchesPart(p: Part, s: string) { if p.Lit? then s == Text(p.w) else s != "" }

  /** The endpoint's pattern to the end of the text: its words in place, a non-empty segment for each parameter. */
  predicate MatchesWhole(t: seq<Part>, path: string) {
    var s := Segments(path);
    |s| == |t| && Path(s) == path && forall i :: 0 <= i < |t| ==> MatchesPart(t[i], s[i])
  }

  /** The pattern; its `$` also stands before a closing line feed. */
  predicate MatchesLine(t: seq<Part>, path: string) {
    MatchesWhole(t, path) || (EndsLine(path) && MatchesWhole(t, path[..|path| - 1]))
  }

  predicate Matches(ep: Endpoint, verb: Verb, path: string) { ep.verb == verb && MatchesLine(ep.template, path) }

  /** The first element that meets a test. */
  method First<T>(table: seq<T>, hit: T -> bool) returns (r: Option<T>)
    ensures r.Some? ==> r.value in table && hit(r.value)
    ensures r.None? ==> forall x :: x in table ==> !hit(x)
  {
    for i := 0 to |table|
      invariant forall j :: 0 <= j < i ==> !hit(table[j])
    {
      if hit(table[i]) {
        return Some(table[i]);
      }
    }
    r := None;
  }

  /** The first entry of the table whose method and pattern match. */
  method EndpointFor(verb: Verb, path: string) returns (k: Option<Key>)
    ensures k.Some? ==> Matches(EndpointOf(k.value), verb, path)
    ensures k.None? ==> forall e: Key :: !Matches(EndpointOf(e), verb, path)
  {
    var hit := e => Matches(EndpointOf(e), verb, path);
    k := First(TABLE, hit);
    if k.None? {
      forall e: Key ensures !Matches(EndpointOf(e), verb, path) {
        InTable(e);
        assert !hit(e);
      }
    }
  }

  /** A template as the other side holds it: fixed texts, and the names of the holes. */
  datatype Piece = Fixed(text: string) | Hole(name: Name)

  function PieceOf(p: Part): Piece { if p.Lit? then Fixed(Text(p.w)) else Hole(p.name) }

  function Pieces(t: seq<Part>): (r: seq<Piece>)
    ensures |r| == |t| && forall i :: 0 <= i < |t| ==> r[i] == PieceOf(t[i])
  {
    if t == [] then [] else [PieceOf(t[0])] + Pieces(t[1..])
  }

  /** The texts in the holes' places. */
  function Recover(t: seq<Piece>, s: seq<string>): map<Name, string>
    requires |s| == |t|
  {
    if t == [] then map[]
    else
      var n := |t| - 1;
      var m := Recover(t[..n], s[..n]);
      if t[n].Hole? then m[t[n].name := s[n]] else m
  }

  /** Without the slashes at either end. */
  function Strip(s: string): string {
    if s != "" && s[0] == '/' then Strip(s[1..])
    else if s != "" && s[|s| - 1] == '/' then Strip(s[..|s| - 1])
    else s
  }

  /** The path stripped and split at its slashes. */
  function Parts(path: string): seq<string> { Segments("/" + Strip(path)) }

  /** The simulator reads a call's parameters off the path by the template's segments. */
  method ReadParams(t: seq<Piece>, path: string) returns (r: Option<map<Name, string>>)
    ensures var s := Parts(path);
      r.Some? <==> |s| == |t| && forall i :: 0 <= i < |t| && t[i].Fixed? ==> s[i] == t[i].text
    ensures r.Some? ==> |Parts(path)| == |t| && r.value == Recover(t, Parts(path))
  {
    var s := Parts(path);
    if |s| != |t| {
      return None;
    }
    var m := map[];
    for i := 0 to |t|
      invariant forall j :: 0 <= j < i && t[j].Fixed? ==> s[j] == t[j].text
      invariant m == Recover(t[..i], s[..i])
    {
      assert t[..i + 1][..i] == t[..i] && s[..i + 1][..i] == s[..i];
      if t[i].Hole? {
        m := m[t[i].name := s[i]];
      } else if s[i] != t[i].text {
        return None;
      }
    }
    assert t[..|t|] == t && s[..|t|] == s;
    r := Some(m);
  }

  // ----- the words -----

  /** The word a text is, told by its length and first two letters. */
  function WordOf(s: string): Word
    requires |s| >= 2
  {
    var n, x, y := |s|, s[0], s[1];
    if n == 3 then if x == 'a' then Api else if x == 'e' then Ext else if x == 'c' then Cmd else Run
    else if n == 4 then if x == 'l' then Load else if x == 'd' then Deny else Stop
    else if n == 5 then if x == 'a' then Allow else if x == 'd' then Daily else if x == 'u' then Usage else WaterWord
    else if n == 6 then
      if x == 'a' then if y == 'c' then Active else Alarms
      else if x == 'b' then Berths else if x == 'c' then Config else if x == 'h' then Health
      else if x == 'v' then Valves else if y == 'o' then SocketWord else Status
    else if n == 7 then
      if x == 'b' then Breaker else if x == 'h' then History else if x == 'm' then Marinas else if x == 'p' then Pending
      else if y == 'o' then Sockets else Summary
    else if n == 8 then
      if x == 'b' then Breakers else if x == 'c' then Controls else if x == 'p' then Pedestal else Sessions
    else if n == 9 then if x == 'a' then Analytics else if x == 'o' then Occupancy else Pedestals
    else if n == 11 then if x == 'a' then Acknowledge else if x == 'c' then Consumption else Diagnostics
    else ReferenceImage
  }

  predicate Clean(s: string) { forall i :: 0 <= i < |s| ==> s[i] != '/' && s[i] != '\n' }

  lemma WordsAreDistinct(w: Word)
    ensures |Text(w)| >= 2 && WordOf(Text(w)) == w
  {
  }

  predicate FirstWords(w: Word) { w.Api? || w.Ext? || w.Acknowledge? || w.Active? || w.Alarms? || w.Allow? }

  predicate EarlyWords(w: Word) { w.Analytics? || w.Berths? || w.Breaker? || w.Breakers? || w.Cmd? || w.Config? }

  predicate MiddleWords(w: Word) { w.Consumption? || w.Controls? || w.Daily? || w.Deny? || w.Diagnostics? || w.Health? }

  predicate LateWords(w: Word) { w.History? || w.Load? || w.Marinas? || w.Occupancy? || w.Pedestal? || w.Pedestals? }

  predicate LaterWords(w: Word) {
    w.Pending? || w.ReferenceImage? || w.Run? || w.Sessions? || w.SocketWord? || w.Sockets?
  }

  predicate LastWords(w: Word) { w.Status? || w.Stop? || w.Summary? || w.Usage? || w.Valves? || w.WaterWord? }

  lemma FirstWordsAreClean(w: Word)
    requires FirstWords(w)
    ensures '/' !in Text(w) && '\n' !in Text(w)
  {}

  lemma EarlyWordsAreClean(w: Word)
    requires EarlyWords(w)
    ensures '/' !in Text(w) && '\n' !in Text(w)
  {}

  lemma MiddleWordsAreClean(w: Word)
    requires MiddleWords(w)
    ensures '/' !in Text(w) && '\n' !in Text(w)
  {}

  lemma LateWordsAreClean(w: Word)
    requires LateWords(w)
    ensures '/' !in Text(w) && '\n' !in Text(w)
  {}

  lemma LaterWordsAreClean(w: Word)
    requires LaterWords(w)
    ensures '/' !in Text(w) && '\n' !in Text(w)
  {}

  lemma LastWordsAreClean(w: Word)
    requires LastWords(w)
    ensures '/' !in Text(w) && '\n' !in Text(w)
  {}

  lemma WordsAreClean(w: Word)
    ensures Clean(Text(w))
  {
    if FirstWords(w) {
      FirstWordsAreClean(w);
    }
    if EarlyWords(w) {
      EarlyWordsAreClean(w);
    }
    if MiddleWords(w) {
      MiddleWordsAreClean(w);
    }
    if LateWords(w) {
      LateWordsAreClean(w);
    }
    if LaterWords(w) {
      LaterWordsAreClean(w);
    }
    if LastWords(w) {
      LastWordsAreClean(w);
    }
    assert forall i :: 0 <= i < |Text(w)| ==> Text(w)[i] in Text(w);
  }

  // ----- the table -----

  lemma InTable(k: Key)
    ensures k in TABLE
  {
    assert TABLE[Rank(k)] == k;
  }

  function Rank(k: Key): nat {
    match k
    case PedestalsHealth => 0 case PedestalsList => 1 case PedestalsStatusExt => 2 case WaterStatusExt => 3
    case BerthsList => 4 case BerthsOccupancyExt => 5 case SessionsActive => 6 case SessionsPending => 7
    case AlarmsActive => 8 case AlarmsAcknowledge => 9 case AnalyticsDaily => 10 case AnalyticsSummary => 11
    case SocketsConfigList => 12 case ValvesConfigList => 13 case LoadPedestalGetExt => 14 case LoadSocketGetExt => 15
    case LoadSocketHistoryExt => 16 case LoadPedestalAlarmsExt => 17 case LoadMarinaAlarmsExt => 18
    case BreakersPedestalListExt => 19 case BreakersSocketGetExt => 20 case BreakersPedestalHistoryExt => 21
    case BreakersMarinaAlarmsExt => 22 case UsageHistory => 23 case ControlsSocketCmd => 24 case ControlsWaterCmd => 25
    case ControlsAllow => 26 case ControlsDeny => 27 case ControlsStop => 28 case DiagnosticsRun => 29
    case BerthsPushImageExt => 30
  }

  /** Where two templates of one length and family can differ, besides the third segment and the last. */
  function Middle(n: nat, family: Word): nat { if n < 6 then 2 else if family == Controls then 5 else 4 }

  /** The endpoint with this many segments and these words at the third, the last and the middle place. */
  function KeyWith(n: nat, family: Word, last: Word, middle: Word): Key {
    match last
    case Health => PedestalsHealth case Pedestals => PedestalsList case Status => PedestalsStatusExt
    case WaterWord => WaterStatusExt case Berths => BerthsList case Occupancy => BerthsOccupancyExt
    case Active => if family == Sessions then SessionsActive else AlarmsActive
    case Pending => SessionsPending case Acknowledge => AlarmsAcknowledge
    case Daily => AnalyticsDaily case Summary => AnalyticsSummary
    case Config => if middle == Sockets then SocketsConfigList else ValvesConfigList
    case Load => if n == 5 then LoadPedestalGetExt else LoadSocketGetExt
    case History =>
      if n == 8 then LoadSocketHistoryExt else if middle == Breaker then BreakersPedestalHistoryExt else UsageHistory
    case Alarms =>
      if family == Pedestals then LoadPedestalAlarmsExt
      else if middle == Load then LoadMarinaAlarmsExt else BreakersMarinaAlarmsExt
    case Breakers => BreakersPedestalListExt case Breaker => BreakersSocketGetExt
    case Cmd => if middle == SocketWord then ControlsSocketCmd else ControlsWaterCmd
    case Allow => ControlsAllow case Deny => ControlsDeny case Stop => ControlsStop
    case Run => DiagnosticsRun
    case _ => BerthsPushImageExt
  }

  /** The template's words tell whose it is: it starts /api/ext with no second ext, ends in a word, and its
      length with its third, last and middle word determines the endpoint. */
  predicate TellsApart(k: Key, t: seq<Part>) {
    && |t| >= 3 && t[0] == Lit(Api) && t[1] == Lit(Ext) && t[2].Lit? && t[2].w != Ext && t[|t| - 1].Lit?
    && var m := Middle(|t|, t[2].w);
      m < |t| && t[m].Lit? && KeyWith(|t|, t[2].w, t[|t| - 1].w, t[m].w) == k
  }

  /** The same of a catalog path of the gateway's family, which has no ext yet. */
  predicate TellsApartInside(k: Key, c: seq<Part>) {
    && |c| >= 2 && c[0] == Lit(Api) && c[1].Lit? && c[1].w != Ext && c[|c| - 1].Lit?
    && var m := Middle(|c| + 1, c[1].w) - 1;
      m < |c| && c[m].Lit? && KeyWith(|c| + 1, c[1].w, c[|c| - 1].w, c[m].w) == k
  }

  predicate Told(k: Key, c: seq<Part>) { TellsApart(k, c) || TellsApartInside(k, c) }

  lemma ToldWithoutPedestal(k: Key)
    requires IdTypeOf(k) == NoId && !k.ControlsAllow? && !k.ControlsDeny? && !k.ControlsStop?
    ensures Told(k, Catalog(k))
  {}

  lemma ToldOfSession(k: Key)
    requires k.ControlsAllow? || k.ControlsDeny? || k.ControlsStop?
    ensures Told(k, Catalog(k))
  {}

  lemma ToldByEither(k: Key)
    requires IdTypeOf(k) == PkOrDisplay
    ensures Told(k, Catalog(k))
  {}

  lemma ToldByPk(k: Key)
    requires IdTypeOf(k) == Pk && MethodOf(k) == Get && |Catalog(k)| <= 5
    ensures Told(k, Catalog(k))
  {}

  lemma ToldByPkAndMore(k: Key)
    requires IdTypeOf(k) == Pk && MethodOf(k) == Get && |Catalog(k)| > 5
    ensures Told(k, Catalog(k))
  {}

  lemma ToldOfCommand(k: Key)
    requires IdTypeOf(k) == Pk && MethodOf(k) == Post
    ensures Told(k, Catalog(k))
  {}

  lemma CatalogTold(k: Key)
    ensures Told(k, Catalog(k))
  {
    match IdTypeOf(k)
    case NoId =>
      if k.ControlsAllow? || k.ControlsDeny? || k.ControlsStop? {
        ToldOfSession(k);
      } else {
        ToldWithoutPedestal(k);
      }
    case PkOrDisplay => ToldByEither(k);
    case Pk =>
      if MethodOf(k) == Post {
        ToldOfCommand(k);
      } else if |Catalog(k)| <= 5 {
        ToldByPk(k);
      } else {
        ToldByPkAndMore(k);
      }
  }

  lemma ExternalTellsApart(k: Key, c: seq<Part>)
    requires Told(k, c)
    ensures TellsApart(k, External(c))
  {
    if !TellsApart(k, c) {
      var t := [Lit(Api), Lit(Ext)] + c[1..];
      assert forall i :: 1 <= i < |c| ==> t[i + 1] == c[i];
    }
  }

  /** So is every endpoint of the table told by its path. */
  lemma EndpointTellsApart(k: Key)
    ensures TellsApart(k, EndpointOf(k).template)
  {
    CatalogTold(k);
    ExternalTellsApart(k, Catalog(k));
  }

  /** Two templates as long as each other have different words at some place. */
  ghost predicate Differ(t: seq<Part>, u: seq<Part>) {
    |t| == |u| ==> exists i :: 0 <= i < |t| && OtherWord(t[i], u[i])
  }

  predicate OtherWord(p: Part, q: Part) { p.Lit? && q.Lit? && p.w != q.w }

  lemma EndpointsDiffer(k: Key, t: seq<Part>, e: Key, u: seq<Part>)
    requires k != e && TellsApart(k, t) && TellsApart(e, u)
    ensures Differ(t, u)
  {
    if |t| == |u| {
      var i := if t[2] != u[2] then 2 else if t[|t| - 1] != u[|t| - 1] then |t| - 1 else Middle(|t|, t[2].w);
      assert OtherWord(t[i], u[i]);
    }
  }

  // ----- the round trip -----

  predicate Bare(s: string) { forall i :: 0 <= i < |s| ==> s[i] != '/' }

  predicate AllBare(segments: seq<string>) { segments == [] || (Bare(segments[0]) && AllBare(segments[1..])) }

  /** What reading a built path back gives. */
  function Reread(segments: seq<string>): seq<string> { Segments(Path(segments)) }

  /** Reading back gives at least the segments put in, and only as many when none holds a slash: then the same ones. */
  lemma {:induction false} SegmentsOfPath(segments: seq<string>)
    ensures |Reread(segments)| >= |segments|
    ensures |Reread(segments)| == |segments| <==> AllBare(segments)
    ensures AllBare(segments) ==> Reread(segments) == segments
    decreases |segments|, if segments == [] then 0 else |segments[0]|
  {
    if segments != [] {
      var first, rest := segments[0], segments[1..];
      assert segments == [first] + rest;
      if Bare(first) {
        BareFirst(first, rest);
        SegmentsOfPath(rest);
      } else {
        var tail := SlashedFirst(first, rest);
        SegmentsOfPath([tail] + rest);
      }
    }
  }

  lemma BareFirst(first: string, rest: seq<string>)
    requires Bare(first)
    ensures Reread([first] + rest) == [first] + Reread(rest)
  {
    FirstSlash(first, Path(rest));
    assert ([first] + rest)[1..] == rest;
    var path, body := Path([first] + rest), first + Path(rest);
    assert path[1..] == body;
    assert body[..|first|] == first && body[|first|..] == Path(rest);
  }

  lemma SlashedFirst(first: string, rest: seq<string>) returns (tail: string)
    requires !Bare(first)
    ensures |tail| < |first|
    ensures |Reread([first] + rest)| == 1 + |Reread([tail] + rest)|
  {
    FirstSlash(first, Path(rest));
    var body := first + Path(rest);
    var n := SegmentEnd(body);
    tail := first[n + 1..];
    assert ([first] + rest)[1..] == rest && ([tail] + rest)[1..] == rest;
    var path := Path([first] + rest);
    assert path[1..] == body;
    assert body[n..] == "/" + tail + Path(rest);
  }

  lemma {:induction false} FirstSlash(first: string, rest: string)
    requires rest == "" || rest[0] == '/'
    ensures Bare(first) ==> SegmentEnd(first + rest) == |first|
    ensures !Bare(first) ==> SegmentEnd(first + rest) < |first| && first[SegmentEnd(first + rest)] == '/'
  {
    var n := SegmentEnd(first + rest);
    if n < |first| {
      assert (first + rest)[n] == first[n];
    } else {
      assert forall i :: 0 <= i < |first| ==> (first + rest)[i] == first[i];
      assert rest != "" ==> (first + rest)[|first|] == '/';
    }
  }

  lemma {:induction false} PathEnds(segments: seq<string>)
    requires segments != [] && segments[|segments| - 1] != ""
    ensures var p, l := Path(segments), segments[|segments| - 1]; p[|p| - 1] == l[|l| - 1]
  {
    if |segments| > 1 {
      PathEnds(segments[1..]);
    }
  }

  predicate AllPlain(params: map<Name, Value>) {
    forall n :: n in params ==> params[n].text != "" && Bare(params[n].text)
  }

  lemma {:induction false} AllBareMeans(segments: seq<string>)
    ensures AllBare(segments) <==> forall i :: 0 <= i < |segments| ==> Bare(segments[i])
  {
    if segments != [] {
      AllBareMeans(segments[1..]);
      assert forall i :: 1 <= i < |segments| ==> segments[i] == segments[1..][i - 1];
      assert forall i :: 0 <= i < |segments| - 1 ==> segments[1..][i] == segments[i + 1];
    }
  }

  /** A template's path never ends its line, so every pattern's `$` stands at its very end. */
  lemma {:induction false} FilledIsOneLine(t: seq<Part>, params: map<Name, Value>)
    requires Names(t) == params.Keys && t != [] && t[|t| - 1].Lit?
    ensures forall u :: MatchesLine(u, Path(Filled(t, params))) <==> MatchesWhole(u, Path(Filled(t, params)))
  {
    WordsAreDistinct(t[|t| - 1].w);
    WordsAreClean(t[|t| - 1].w);
    PathEnds(Filled(t, params));
  }

  /** A template matches its own path exactly when no value is empty or holds a slash. */
  lemma {:induction false} OwnPattern(t: seq<Part>, params: map<Name, Value>)
    requires Names(t) == params.Keys
    ensures MatchesWhole(t, Path(Filled(t, params))) <==> AllPlain(params)
    ensures AllPlain(params) ==> Reread(Filled(t, params)) == Filled(t, params)
  {
    var s := Filled(t, params);
    SegmentsOfPath(s);
    AllBareMeans(s);
    if AllBare(s) && forall i :: 0 <= i < |t| ==> MatchesPart(t[i], s[i]) {
      forall n | n in params ensures params[n].text != "" && Bare(params[n].text) {
        assert n in Names(t);
        var i :| 0 <= i < |t| && t[i] == Param(n);
      }
    }
    if AllPlain(params) {
      forall i | 0 <= i < |t| ensures Bare(s[i]) && MatchesPart(t[i], s[i]) {
        if t[i].Lit? {
          WordsAreClean(t[i].w);
        } else {
          assert t[i].name in Names(t);
        }
      }
    }
  }

  /** A pattern with another length, or another word somewhere, does not match. */
  lemma {:induction false} OtherRefuses(t: seq<Part>, u: seq<Part>, params: map<Name, Value>)
    requires Differ(t, u) && Names(t) == params.Keys && AllPlain(params)
    ensures !MatchesWhole(u, Path(Filled(t, params)))
  {
    OwnPattern(t, params);
    if |t| == |u| {
      var i :| 0 <= i < |t| && OtherWord(t[i], u[i]);
      WordsAreDistinct(t[i].w);
      WordsAreDistinct(u[i].w);
      assert Reread(Filled(t, params))[i] == TextOf(t[i], params);
    }
  }

  lemma {:induction false} PatternOf(t: seq<Part>, u: seq<Part>, params: map<Name, Value>)
    requires Names(t) == params.Keys && t != [] && t[|t| - 1].Lit?
    ensures MatchesLine(t, Path(Filled(t, params))) <==> AllPlain(params)
    ensures AllPlain(params) && Differ(t, u) ==> !MatchesLine(u, Path(Filled(t, params)))
  {
    OwnPattern(t, params);
    FilledIsOneLine(t, params);
    if AllPlain(params) && Differ(t, u) {
      OtherRefuses(t, u, params);
    }
  }

  /** Reverse lookup of a built path finds the endpoint it was built for exactly when every value is non-empty and
      slash-free; and then no other endpoint e, under any method, matches. */
  lemma {:induction false} ReverseLookup(k: Key, params: map<Name, Value>, path: string, e: Key, verb: Verb)
    requires BuildPath(EndpointOf(k), params) == Some(path)
    ensures Matches(EndpointOf(k), EndpointOf(k).verb, path) <==> AllPlain(params)
    ensures AllPlain(params) ==>
      (Matches(EndpointOf(e), verb, path) <==> e == k && verb == EndpointOf(k).verb)
  {
    AcceptsAlone(k, e, params);
  }

  /** A line feed after the path changes nothing: the pattern still matches. */
  lemma LineFeedMatches(k: Key, params: map<Name, Value>, path: string)
    requires BuildPath(EndpointOf(k), params) == Some(path) && AllPlain(params)
    ensures Matches(EndpointOf(k), EndpointOf(k).verb, path + "\n")
  {
    var line := path + "\n";
    assert line[..|line| - 1] == path;
    OwnPattern(EndpointOf(k).template, params);
  }

  lemma {:induction false} AcceptsAlone(k: Key, e: Key, params: map<Name, Value>)
    requires Names(EndpointOf(k).template) == params.Keys
    ensures var path := Path(Filled(EndpointOf(k).template, params));
      && (MatchesLine(EndpointOf(k).template, path) <==> AllPlain(params))
      && (AllPlain(params) && e != k ==> !MatchesLine(EndpointOf(e).template, path))
  {
    TemplateEnds(k);
    if e != k {
      TemplatesDiffer(k, e);
    }
    PatternOf(EndpointOf(k).template, EndpointOf(e).template, params);
  }

  lemma TemplateEnds(k: Key)
    ensures var t := EndpointOf(k).template; t != [] && t[|t| - 1].Lit?
  {
    EndpointTellsApart(k);
  }

  lemma TemplatesDiffer(k: Key, e: Key)
    requires e != k
    ensures Differ(EndpointOf(k).template, EndpointOf(e).template)
  {
    EndpointTellsApart(k);
    EndpointTellsApart(e);
    EndpointsDiffer(k, EndpointOf(k).template, e, EndpointOf(e).template);
  }

  /** A display id with a slash in it: the path is built, and its own endpoint does not match it. */
  lemma SlashIsLost()
    ensures var ep, params := EndpointOf(PedestalsStatusExt), map[PedestalId := Str("A/1")];
      && BuildPath(ep, params).Some?
      && !Matches(ep, ep.verb, BuildPath(ep, params).value)
  {
    var ep, params := EndpointOf(PedestalsStatusExt), map[PedestalId := Str("A/1")];
    assert ep.template == [Lit(Api), Lit(Ext), Lit(Pedestals), P, Lit(Status)];
    assert P in ep.template && Names(ep.template) == {PedestalId};
    assert params[PedestalId].text[1] == '/';
    ReverseLookup(PedestalsStatusExt, params, BuildPath(ep, params).value, PedestalsStatusExt, ep.verb);
  }

  function Texts(params: map<Name, Value>): map<Name, string> { map n | n in params :: params[n].text }

  /** Each hole's place holds that name's text. */
  ghost predicate Holds(t: seq<Piece>, s: seq<string>, v: map<Name, string>) {
    |s| == |t| && forall i :: 0 <= i < |t| && t[i].Hole? ==> t[i].name in v && s[i] == v[t[i].name]
  }

  lemma {:induction false} RecoverHolds(t: seq<Piece>, s: seq<string>, v: map<Name, string>)
    requires Holds(t, s, v)
    ensures var m := Recover(t, s);
      && (forall n :: n in m ==> n in v && m[n] == v[n])
      && (forall i :: 0 <= i < |t| && t[i].Hole? ==> t[i].name in m)
  {
    if t != [] {
      var n := |t| - 1;
      RecoverHolds(t[..n], s[..n], v);
      assert forall i :: 0 <= i < n ==> t[i] == t[..n][i];
    }
  }

  lemma {:induction false} FilledHolds(t: seq<Part>, params: map<Name, Value>)
    requires Names(t) == params.Keys
    ensures Holds(Pieces(t), Filled(t, params), Texts(params))
  {
    forall i | 0 <= i < |t| && Pieces(t)[i].Hole?
      ensures Pieces(t)[i].name in Texts(params) && Filled(t, params)[i] == Texts(params)[Pieces(t)[i].name]
    {
      assert t[i].name in Names(t);
    }
  }

  lemma EveryNameIsAHole(t: seq<Part>, n: Name) returns (i: nat)
    requires n in Names(t)
    ensures i < |t| && Pieces(t)[i] == Hole(n)
  {
    i :| 0 <= i < |t| && t[i] == Param(n);
  }

  lemma {:induction false} RecoverFilled(t: seq<Part>, params: map<Name, Value>)
    requires Names(t) == params.Keys
    ensures Recover(Pieces(t), Filled(t, params)) == Texts(params)
  {
    FilledHolds(t, params);
    RecoverHolds(Pieces(t), Filled(t, params), Texts(params));
    forall n | n in params ensures n in Recover(Pieces(t), Filled(t, params)) {
      var i := EveryNameIsAHole(t, n);
    }
    SameTexts(Recover(Pieces(t), Filled(t, params)), Texts(params));
  }

  lemma SameTexts(m: map<Name, string>, v: map<Name, string>)
    requires (forall n :: n in m ==> n in v && m[n] == v[n]) && (forall n :: n in v ==> n in m)
    ensures m == v
  {}

  lemma {:induction false} FixedFilled(t: seq<Part>, params: map<Name, Value>)
    ensures forall i :: 0 <= i < |t| && Pieces(t)[i].Fixed? ==> Filled(t, params)[i] == Pieces(t)[i].text
  {}

  /** The parameters put in a template's path are read off it again. */
  method ReadBack(t: seq<Part>, params: map<Name, Value>, path: string) returns (r: Option<map<Name, string>>)
    requires Names(t) == params.Keys && AllPlain(params) && t != [] && path == Path(Filled(t, params))
    ensures r == Some(Texts(params))
  {
    OwnPattern(t, params);
    StripFilled(t, params);
    RecoverFilled(t, params);
    FixedFilled(t, params);
    r := ReadParams(Pieces(t), path);
  }

  /** A path of proper segments loses just its first slash. */
  lemma {:induction false} StripPath(segments: seq<string>)
    requires segments != [] && segments[0] != "" && segments[0][0] != '/'
    requires var last := segments[|segments| - 1]; last != "" && last[|last| - 1] != '/'
    ensures "/" + Strip(Path(segments)) == Path(segments)
  {
    var p := Path(segments);
    PathEnds(segments);
    assert p[1..] == segments[0] + Path(segments[1..]);
    assert p[1..][0] != '/' && p[1..][|p[1..]| - 1] != '/';
  }

  lemma {:induction false} StripFilled(t: seq<Part>, params: map<Name, Value>)
    requires Names(t) == params.Keys && AllPlain(params) && t != []
    ensures Parts(Path(Filled(t, params))) == Reread(Filled(t, params))
  {
    FilledIsProper(t, params, 0);
    FilledIsProper(t, params, |t| - 1);
    StripPath(Filled(t, params));
  }

  lemma {:induction false} FilledIsProper(t: seq<Part>, params: map<Name, Value>, i: nat)
    requires Names(t) == params.Keys && AllPlain(params) && i < |t|
    ensures var s := Filled(t, params)[i]; s != "" && Bare(s)
  {
    if t[i].Lit? {
      WordsAreDistinct(t[i].w);
      WordsAreClean(t[i].w);
    } else {
      assert t[i].name in Names(t);
    }
  }

  /** What the client put in a path, the other side reads off it: the endpoint and the parameters. */
  method Serve(k: Key, params: map<Name, Value>, path: string)
    returns (found: Option<Key>, read: Option<map<Name, string>>)
    requires BuildPath(EndpointOf(k), params) == Some(path) && AllPlain(params)
    ensures found == Some(k) && read == Some(Texts(params))
  {
    var ep := EndpointOf(k);
    found := EndpointFor(ep.verb, path);
    ReverseLookup(k, params, path, if found.Some? then found.value else k, ep.verb);
    TemplateEnds(k);
    read := ReadBack(ep.template, params, path);
  }

  /** Whatever the values, words at a template's front are read back as they are. */
  lemma {:induction false} FrontIsKept(t: seq<Part>, params: map<Name, Value>)
    requires |t| > 0 && t[0].Lit?
    ensures Reread(Filled(t, params)) == [Text(t[0].w)] + Reread(Filled(t[1..], params))
  {
    WordsAreClean(t[0].w);
    BareFirst(Text(t[0].w), Filled(t[1..], params));
  }

  lemma {:induction false} StartsOnce(t: seq<Part>, params: map<Name, Value>)
    requires |t| >= 3 && t[0] == Lit(Api) && t[1] == Lit(Ext) && t[2].Lit? && t[2].w != Ext
    ensures var s := Reread(Filled(t, params)); |s| >= 3 && s[0] == "api" && s[1] == "ext" && s[2] != "ext"
  {
    FrontIsKept(t, params);
    FrontIsKept(t[1..], params);
    FrontIsKept(t[1..][1..], params);
    WordsAreDistinct(t[2].w);
    WordsAreDistinct(Ext);
  }

  /** Whatever the values, a built path starts /api/ext and no ext follows. */
  lemma {:induction false} NoDoubledExt(k: Key, params: map<Name, Value>)
    ensures var s := Reread(Filled(EndpointOf(k).template, params));
      |s| >= 3 && s[0] == "api" && s[1] == "ext" && s[2] != "ext"
  {
    EndpointTellsApart(k);
    StartsOnce(EndpointOf(k).template, params);
  }
}
