/**
 * Settings in the gateway's `ui_meta`: one client's half of a per-key compare-and-swap.
 *
 * The app's stores are a value (`Local`) that the client reads at the moment it
 * writes; the roster, the answer to a write and the plugin's advert arrive as
 * parameters.
 */
module SettingsSync {
  import opened Prelude

  datatype Json = Null | Num(number: real) | Text(text: string) | Flag(flag: bool) | Obj(fields: map<string, Json>) | List(items: seq<Json>)

  type Section = map<string, Json>

  const HERMIE_KEY := "hermie"
  const HERMIE_APP_KEY := "hermie-app"
  const SECTION_VERSION := 1.0
  const APP_UPDATED_AT := "updatedAt"
  const RETRIES := 1

  /** A key of one profile. */
  datatype Place = Place(profile: string, key: string)

  datatype Row = Row(name: string, isDefault: bool, meta: Json, revisions: map<string, int>)

  /** An answer to `profiles.list`: the rows, and whether the plugin reads per-person keys. */
  datatype Roster = Roster(rows: seq<Row>, perUser: bool)

  /** What the app holds; `names` is the order in which its bots are visited. */
  datatype Local = Local(app: Option<Section>, bots: map<string, Section>, names: seq<string>)

  datatype Snapshot = Snapshot(app: Option<Section>, bots: map<string, Section>, remote: Option<Section>,
                               pushHome: Option<Section>, migrated: bool)

  /** The keys one request writes on one profile. */
  datatype Batch = Batch(profile: string, keys: seq<string>)

  datatype Request = Request(profile: string, sections: map<string, Option<Section>>, expected: map<string, int>)

  datatype Answer = Answer(revisions: map<string, int>, conflicts: map<string, int>)

  datatype Sync = Sync(revisions: map<Place, int>, defaultProfile: Option<string>, userId: string, perUser: bool,
                       legacyApp: Option<Section>, dirtyBots: seq<string>, dirtyApp: bool, synced: bool)

  // ------------------------------------------------------------- sections

  /** JavaScript's truth value of a field. */
  predicate Truthy(j: Json) {
    match j
    case Null => false
    case Num(n) => n != 0.0
    case Text(t) => t != ""
    case Flag(b) => b
    case _ => true
  }

  /** `0` is "undated", the lowest answer there is. */
  function AppStampOf(section: Option<Section>): nat {
    if section.None? || APP_UPDATED_AT !in section.value then 0
    else match section.value[APP_UPDATED_AT]
         case Num(n) => if n > 0.0 then n.Floor else 0
         case _ => 0
  }

  function ReadSection(meta: Json, key: string): Option<Section> {
    if !meta.Obj? || key !in meta.fields || !meta.fields[key].Obj? then None
    else
      var section := meta.fields[key].fields;
      if "v" in section && section["v"].Num? && 0.0 < section["v"].number <= SECTION_VERSION then Some(section) else None
  }

  function InheritedFromLegacy(legacy: Section): Section {
    legacy["v" := Num(SECTION_VERSION)] - {"push", "context"}
  }

  function AppKeyFor(userId: string): string {
    HERMIE_APP_KEY + ":" + userId
  }

  function AppKey(s: Sync): Option<string> {
    if s.userId == "" then None else Some(AppKeyFor(s.userId))
  }

  function RevisionIn(revisions: map<string, int>, key: string): int {
    if key in revisions then revisions[key] else 0
  }

  function Known(s: Sync, place: Place): int {
    if place in s.revisions then s.revisions[place] else 0
  }

  predicate Pending(s: Sync) {
    s.dirtyApp || s.dirtyBots != []
  }

  // ------------------------------------------------------------- the pull

  /** What has been read out of the rows so far. */
  datatype Reading = Reading(revisions: map<Place, int>, defaultProfile: Option<string>, bots: map<string, Section>,
                             app: Option<Section>, legacy: Option<Section>)

  function ReadRow(r: Reading, row: Row, appKey: Option<string>): Reading {
    if row.name == "" then r
    else
      var section := ReadSection(row.meta, HERMIE_KEY);
      var bot := r.(revisions := r.revisions[Place(row.name, HERMIE_KEY) := RevisionIn(row.revisions, HERMIE_KEY)],
                    bots := if section.Some? then r.bots[row.name := section.value] else r.bots);
      if !row.isDefault then bot
      else
        var default := bot.(
          defaultProfile := Some(row.name),
          legacy := ReadSection(row.meta, HERMIE_APP_KEY),
          revisions := bot.revisions[Place(row.name, HERMIE_APP_KEY) := RevisionIn(row.revisions, HERMIE_APP_KEY)]);
        if appKey.None? then default
        else
          default.(revisions := default.revisions[Place(row.name, appKey.value) := RevisionIn(row.revisions, appKey.value)],
                   app := ReadSection(row.meta, appKey.value))
  }

  function ReadRows(r: Reading, rows: seq<Row>, appKey: Option<string>): Reading
    decreases |rows|
  {
    if rows == [] then r else ReadRow(ReadRows(r, rows[..|rows| - 1], appKey), rows[|rows| - 1], appKey)
  }

  function ReadingOf(s: Sync, roster: Roster): Reading {
    ReadRows(Reading(s.revisions, s.defaultProfile, map[], None, None), roster.rows, AppKey(s))
  }

  /** What the client knows after a roster it could read. */
  function Pulled(s: Sync, roster: Roster): Sync {
    var r := ReadingOf(s, roster);
    s.(revisions := r.revisions, defaultProfile := r.defaultProfile, synced := true, perUser := roster.perUser,
       legacyApp := r.legacy)
  }

  /** The gateway's copy, with the one-time inheritance of the anonymous section. */
  function Remote(s: Sync, roster: Roster): Snapshot {
    var r := ReadingOf(s, roster);
    if AppKey(s).Some? && r.app.None? && r.legacy.Some? then
      Snapshot(Some(InheritedFromLegacy(r.legacy.value)), r.bots, None, if roster.perUser then None else r.legacy, true)
    else
      Snapshot(r.app, r.bots, r.app, if roster.perUser then r.app else r.legacy, false)
  }

  function AppLocalWins(dirtyApp: bool, local: Option<Section>, remote: Option<Section>): bool {
    dirtyApp &&
    (remote.None? ||
     (local.Some? &&
      ((AppStampOf(local) == 0 && AppStampOf(remote) == 0) || AppStampOf(local) > AppStampOf(remote))))
  }

  function KeepBot(bots: map<string, Section>, name: string, local: Local): map<string, Section> {
    if name in local.bots then bots[name := local.bots[name]] else bots - {name}
  }

  function KeepBots(bots: map<string, Section>, dirty: seq<string>, local: Local): map<string, Section>
    decreases |dirty|
  {
    if dirty == [] then bots else KeepBot(KeepBots(bots, dirty[..|dirty| - 1], local), dirty[|dirty| - 1], local)
  }

  /** The gateway's copy, except where this device still holds a change. */
  function WithPendingKept(s: Sync, remote: Snapshot, local: Local): Snapshot {
    if !Pending(s) then remote
    else
      Snapshot(if AppLocalWins(s.dirtyApp, local.app, remote.app) then local.app else remote.app,
               KeepBots(remote.bots, s.dirtyBots, local), remote.app, remote.pushHome, false)
  }

  /** A local section dated later than the gateway's is an unsent change. */
  function NoteNewerLocalApp(s: Sync, remote: Snapshot, local: Local): Sync {
    if !remote.migrated && local.app.Some? && AppStampOf(local.app) > AppStampOf(remote.app) then s.(dirtyApp := true) else s
  }

  function MarkBot(s: Sync, name: string): Sync {
    if name in s.dirtyBots then s else s.(dirtyBots := s.dirtyBots + [name])
  }

  function SeedBots(s: Sync, names: seq<string>, remote: Snapshot, local: Local): Sync
    decreases |names|
  {
    if names == [] then s
    else
      var name, before := names[|names| - 1], SeedBots(s, names[..|names| - 1], remote, local);
      if name in local.bots && name !in remote.bots then MarkBot(before, name) else before
  }

  /** A section this device has and the gateway lacks is sent. */
  function SeedWhatTheGatewayLacks(s: Sync, remote: Snapshot, local: Local): Sync {
    SeedBots(if remote.app.None? && local.app.Some? then s.(dirtyApp := true) else s, local.names, remote, local)
  }

  /** The snapshot a reconcile hands to the app, and the client it leaves behind before the flush. */
  function Offered(s: Sync, roster: Roster, local: Local): Snapshot {
    WithPendingKept(NoteNewerLocalApp(Pulled(s, roster), Remote(s, roster), local), Remote(s, roster), local)
  }

  function Reconciled(s: Sync, roster: Roster, local: Local, adopted: Local): Sync {
    var remote := Remote(s, roster);
    var seeded := SeedWhatTheGatewayLacks(NoteNewerLocalApp(Pulled(s, roster), remote, local), remote, adopted);
    if remote.migrated then seeded.(dirtyApp := true) else seeded
  }

  // ------------------------------------------------------------ the flush

  /** `at(profile).push(...)` over an insertion-ordered map. */
  function AddKeys(batches: seq<Batch>, profile: string, keys: seq<string>): seq<Batch>
    decreases |batches|
  {
    if batches == [] then [Batch(profile, keys)]
    else if batches[0].profile == profile then [Batch(profile, batches[0].keys + keys)] + batches[1..]
    else [batches[0]] + AddKeys(batches[1..], profile, keys)
  }

  function BotBatches(names: seq<string>): seq<Batch> {
    seq(|names|, i requires 0 <= i < |names| => Batch(names[i], [HERMIE_KEY]))
  }

  function AppKeys(s: Sync): seq<string>
    requires s.userId != ""
  {
    [AppKeyFor(s.userId)] + (if s.perUser then [] else [HERMIE_APP_KEY])
  }

  function Batches(s: Sync): seq<Batch> {
    if s.dirtyApp && s.defaultProfile.Some? && s.userId != "" then
      AddKeys(BotBatches(s.dirtyBots), s.defaultProfile.value, AppKeys(s))
    else BotBatches(s.dirtyBots)
  }

  function LegacyPushSection(held: Option<Section>, app: Option<Section>): Option<Section> {
    var push := if app.Some? && "push" in app.value && Truthy(app.value["push"]) then Some(app.value["push"]) else None;
    if push.None? && held.None? then None
    else
      var base := (if held.Some? then held.value else map[])["v" := Num(SECTION_VERSION)];
      Some(if push.Some? then base["push" := push.value] else base)
  }

  function SectionFor(s: Sync, profile: string, key: string, local: Local): Option<Section> {
    if key == HERMIE_KEY then
      if profile in local.bots then Some(local.bots[profile]["v" := Num(SECTION_VERSION)]) else None
    else if key == HERMIE_APP_KEY then LegacyPushSection(s.legacyApp, local.app)
    else if local.app.None? then None
    else
      var app := local.app.value["v" := Num(SECTION_VERSION)];
      Some(if s.perUser then app else app - {"push"})
  }

  function SectionsFor(s: Sync, profile: string, keys: seq<string>, local: Local): map<string, Option<Section>> {
    map key | key in keys :: SectionFor(s, profile, key, local)
  }

  function ExpectedFor(s: Sync, profile: string, keys: seq<string>): map<string, int> {
    map key | key in keys :: Known(s, Place(profile, key))
  }

  /** The bytes of one attempt, and the revisions they are conditional on. */
  function Attempt(s: Sync, batch: Batch, local: Local): Request {
    Request(batch.profile, SectionsFor(s, batch.profile, batch.keys, local), ExpectedFor(s, batch.profile, batch.keys))
  }

  /** Every revision the answer names is taken, and a conflict's own last. */
  function NoteAnswer(s: Sync, profile: string, answer: Answer): Sync {
    var told := answer.revisions + answer.conflicts;
    s.(revisions := s.revisions + (map place: Place | place in TellsAbout(profile, told.Keys) :: told[place.key]))
  }

  function TellsAbout(profile: string, keys: set<string>): (places: set<Place>)
    ensures forall place :: place in places <==> place.profile == profile && place.key in keys
  {
    set key | key in keys :: Place(profile, key)
  }

  function ClearKey(s: Sync, profile: string, key: string): Sync {
    if key == HERMIE_KEY then s.(dirtyBots := Without(s.dirtyBots, profile)) else s.(dirtyApp := false)
  }

  function Without(names: seq<string>, name: string): (r: seq<string>)
    ensures name !in r && (forall n :: n in names && n != name <==> n in r)
  {
    if names == [] then [] else (if names[0] == name then [] else [names[0]]) + Without(names[1..], name)
  }

  function ClearDirty(s: Sync, profile: string, keys: seq<string>): Sync
    decreases |keys|
  {
    if keys == [] then s else ClearKey(ClearDirty(s, profile, keys[..|keys| - 1]), profile, keys[|keys| - 1])
  }

  /** A different person drops the pending app write, which was made under the other name. */
  function SetUser(s: Sync, userId: string): Sync {
    if userId == s.userId then s else s.(userId := userId, dirtyApp := false)
  }

  const Fresh: Sync := Sync(map[], None, "", false, None, [], false, false)
}
