/** Any number of devices writing one gateway's `ui_meta`, interleaved at every await. */
module SettingsWorld {
  import opened Prelude
  import opened SettingsSync

  // ---------------------------------------------------------------- gateway

  datatype Profile = Profile(isDefault: bool, bag: map<string, Json>, revisions: map<string, int>)

  type Gateway = map<string, Profile>

  /** The compare-and-swap of one key. */
  predicate Passes(p: Profile, request: Request, key: string) {
    key in request.expected ==> request.expected[key] == RevisionIn(p.revisions, key)
  }

  predicate Lands(p: Profile, request: Request, key: string) {
    key in request.sections && Passes(p, request, key)
  }

  function Landed(p: Profile, request: Request): (keys: set<string>)
    ensures forall key :: key in keys <==> Lands(p, request, key)
  {
    set key | key in request.sections && Passes(p, request, key)
  }

  /** A section written as `null` is removed; the revision counts either way. */
  function Written(p: Profile, request: Request): Profile {
    var landed := Landed(p, request);
    var kept := set key | key in p.bag && !(key in landed && request.sections[key].None?);
    var added := set key | key in landed && request.sections[key].Some?;
    p.(bag := map key | key in kept + added :: if key in landed then Obj(request.sections[key].value) else p.bag[key],
       revisions := map key | key in p.revisions.Keys + landed ::
         if key in landed then RevisionIn(p.revisions, key) + 1 else p.revisions[key])
  }

  /** The answer names the revision of every key of the profile, and each refusal. */
  function AnswerTo(p: Profile, request: Request): Answer {
    Answer(Written(p, request).revisions,
           map key | key in request.sections && !Passes(p, request, key) :: RevisionIn(p.revisions, key))
  }

  function ListOf(g: Gateway, names: seq<string>, perUser: bool): Roster
    requires forall i :: 0 <= i < |names| ==> names[i] in g
  {
    Roster(seq(|names|, i requires 0 <= i < |names| =>
                 Row(names[i], g[names[i]].isDefault, Obj(g[names[i]].bag), g[names[i]].revisions)), perUser)
  }

  // ---------------------------------------------------------------- devices

  datatype Pull = Unanswered | Listed(roster: Roster)

  /** Where the one flush stands: at its request, or at the re-read after a conflict. */
  datatype Flow =
    | Idle
    | Sending(batch: Batch, attempt: nat, rest: seq<Batch>, request: Request, reply: Option<Answer>)
    | Rereading(batch: Batch, attempt: nat, rest: seq<Batch>, roster: Option<Roster>)

  datatype Device = Device(sync: Sync, local: Local, pulls: seq<Pull>, flow: Flow)

  datatype Write = Write(place: Place, section: Option<Section>)

  /** `accepted` is every write the gateway took; `history` is the home key's stamp at each of its revisions. */
  datatype World = World(gateway: Gateway, devices: seq<Device>, accepted: set<Write>, history: map<int, nat>)

  datatype Action =
    | Edit(i: nat, local: Local) | MarkApp(i: nat) | MarkName(i: nat, name: string)
    | AskRoster(i: nat) | AnswerRoster(i: nat, j: nat, names: seq<string>, perUser: bool)
    | LoseRoster(i: nat, j: nat) | TakeRoster(i: nat, j: nat, adopted: Local)
    | Flush(i: nat) | ApplyWrite(i: nat) | LoseWrite(i: nat) | TakeAnswer(i: nat)
    | AnswerReread(i: nat, names: seq<string>, perUser: bool) | LoseReread(i: nat) | TakeReread(i: nat, adopted: Local)
    | Foreign(place: Place, value: Option<Json>)

  /** The next profile of a flush, its bytes built at this moment. */
  function SendNext(d: Device, rest: seq<Batch>): Device {
    if rest == [] then d.(flow := Idle)
    else d.(flow := Sending(rest[0], 0, rest[1..], Attempt(d.sync, rest[0], d.local), None))
  }

  function BeginFlush(d: Device): Device {
    if d.flow.Idle? then SendNext(d, Batches(d.sync)) else d
  }

  /** A section the app is handed dates it; nothing handed over leaves the app's own date. */
  predicate Adopts(local: Local, offered: Snapshot, adopted: Local) {
    AppStampOf(adopted.app) == AppStampOf(if offered.app.Some? then offered.app else local.app)
  }

  function DropAt<T>(s: seq<T>, j: nat): seq<T>
    requires j < |s|
  {
    s[..j] + s[j + 1..]
  }

  function TakingRoster(d: Device, j: nat, adopted: Local): Device
    requires j < |d.pulls| && d.pulls[j].Listed?
  {
    BeginFlush(d.(sync := Reconciled(d.sync, d.pulls[j].roster, d.local, adopted), local := adopted,
                  pulls := DropAt(d.pulls, j)))
  }

  function TakingAnswer(d: Device): Device
    requires d.flow.Sending? && d.flow.reply.Some?
  {
    var noted := NoteAnswer(d.sync, d.flow.batch.profile, d.flow.reply.value);
    if d.flow.reply.value.conflicts == map[] then
      SendNext(d.(sync := ClearDirty(noted, d.flow.batch.profile, d.flow.batch.keys)), d.flow.rest)
    else d.(sync := noted, flow := Rereading(d.flow.batch, d.flow.attempt, d.flow.rest, None))
  }

  function NextAttempt(d: Device, batch: Batch, attempt: nat, rest: seq<Batch>): Device {
    if attempt < RETRIES then d.(flow := Sending(batch, attempt + 1, rest, Attempt(d.sync, batch, d.local), None))
    else SendNext(d, rest)
  }

  function Merged(d: Device, roster: Roster): Snapshot {
    WithPendingKept(Pulled(d.sync, roster), Remote(d.sync, roster), d.local)
  }

  function TakingReread(d: Device, adopted: Local): Device
    requires d.flow.Rereading? && d.flow.roster.Some?
  {
    NextAttempt(d.(sync := Pulled(d.sync, d.flow.roster.value), local := adopted), d.flow.batch, d.flow.attempt, d.flow.rest)
  }

  predicate Lists(g: Gateway, names: seq<string>) {
    (forall i :: 0 <= i < |names| ==> names[i] in g) && (forall name :: name in g ==> name in names)
    && (forall i, j :: 0 <= i < j < |names| ==> names[i] != names[j])
  }

  predicate Enabled(w: World, a: Action) {
    if a.Foreign? then a.place.profile in w.gateway
    else
      a.i < |w.devices| &&
      var d := w.devices[a.i];
      match a
      case AnswerRoster(_, j, names, _) => j < |d.pulls| && Lists(w.gateway, names)
      case LoseRoster(_, j) => j < |d.pulls|
      case TakeRoster(_, j, adopted) =>
        j < |d.pulls| && d.pulls[j].Listed? && Adopts(d.local, Offered(d.sync, d.pulls[j].roster, d.local), adopted)
      case ApplyWrite(_) => d.flow.Sending? && d.flow.reply.None? && d.flow.request.profile in w.gateway
      case LoseWrite(_) => d.flow.Sending?
      case TakeAnswer(_) => d.flow.Sending? && d.flow.reply.Some?
      case AnswerReread(_, names, _) => d.flow.Rereading? && Lists(w.gateway, names)
      case LoseReread(_) => d.flow.Rereading?
      case TakeReread(_, adopted) =>
        d.flow.Rereading? && d.flow.roster.Some? && Adopts(d.local, Merged(d, d.flow.roster.value), adopted)
      case _ => true
  }

  function With(w: World, i: nat, d: Device): World
    requires i < |w.devices|
  {
    w.(devices := w.devices[i := d])
  }

  /** The stamp of the home key, as this build reads it. */
  function StampAt(g: Gateway, home: Place): nat {
    if home.profile in g then AppStampOf(ReadSection(Obj(g[home.profile].bag), home.key)) else 0
  }

  function RevisionAt(g: Gateway, place: Place): int {
    if place.profile in g then RevisionIn(g[place.profile].revisions, place.key) else 0
  }

  function Recorded(w: World, home: Place): World {
    w.(history := w.history[RevisionAt(w.gateway, home) := StampAt(w.gateway, home)])
  }

  function WritesOf(p: Profile, request: Request): set<Write> {
    set key | key in Landed(p, request) :: Write(Place(request.profile, key), request.sections[key])
  }

  function Applied(w: World, i: nat): World
    requires i < |w.devices| && w.devices[i].flow.Sending? && w.devices[i].flow.request.profile in w.gateway
  {
    var d := w.devices[i];
    var request := d.flow.request;
    var p := w.gateway[request.profile];
    With(w, i, d.(flow := d.flow.(reply := Some(AnswerTo(p, request)))))
      .(gateway := w.gateway[request.profile := Written(p, request)], accepted := w.accepted + WritesOf(p, request))
  }

  function Overwritten(g: Gateway, place: Place, value: Option<Json>): Gateway
    requires place.profile in g
  {
    var p := g[place.profile];
    g[place.profile :=
      p.(bag := if value.Some? then p.bag[place.key := value.value] else p.bag - {place.key},
         revisions := p.revisions[place.key := RevisionIn(p.revisions, place.key) + 1])]
  }

  function Next(w: World, a: Action, home: Place): (w': World)
    requires Enabled(w, a)
    ensures |w'.devices| == |w.devices|
  {
    if a.Foreign? then Recorded(w.(gateway := Overwritten(w.gateway, a.place, a.value)), home)
    else
      var d := w.devices[a.i];
      match a
      case Edit(i, local) => With(w, i, d.(local := local))
      case MarkApp(i) => With(w, i, d.(sync := d.sync.(dirtyApp := true)))
      case MarkName(i, name) => With(w, i, d.(sync := MarkBot(d.sync, name)))
      case AskRoster(i) => With(w, i, d.(pulls := d.pulls + [Unanswered]))
      case AnswerRoster(i, j, names, perUser) =>
        With(w, i, d.(pulls := d.pulls[j := Listed(ListOf(w.gateway, names, perUser))]))
      case LoseRoster(i, j) => With(w, i, d.(pulls := DropAt(d.pulls, j), sync := d.sync.(synced := false)))
      case TakeRoster(i, j, adopted) => With(w, i, TakingRoster(d, j, adopted))
      case Flush(i) => With(w, i, BeginFlush(d))
      case ApplyWrite(i) => Recorded(Applied(w, i), home)
      case LoseWrite(i) => With(w, i, SendNext(d.(sync := d.sync.(synced := false)), d.flow.rest))
      case TakeAnswer(i) => With(w, i, TakingAnswer(d))
      case AnswerReread(i, names, perUser) =>
        With(w, i, d.(flow := d.flow.(roster := Some(ListOf(w.gateway, names, perUser)))))
      case LoseReread(i) =>
        With(w, i, NextAttempt(d.(sync := d.sync.(synced := false)), d.flow.batch, d.flow.attempt, d.flow.rest))
      case TakeReread(i, adopted) => With(w, i, TakingReread(d, adopted))
  }
}
