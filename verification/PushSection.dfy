/**
 * The push section: one row per installation and one stamp per reader, written
 * by every device from the section before it.
 */
module PushSection {
  import opened Prelude
  import opened SettingsSync

  const PUSH := "push"
  const REGISTRATIONS := "registrations"
  const SEEN := "seen"
  const SEEN_TTL_SECONDS := 86400

  /** A member of an object, where there is one and it is an object itself. */
  function Member(j: Json, key: string): map<string, Json> {
    if j.Obj? && key in j.fields && j.fields[key].Obj? then j.fields[key].fields else map[]
  }

  function PushOf(section: Json): Json {
    Obj(Member(section, PUSH))
  }

  function RowsOf(section: Json): map<string, Json> {
    Member(PushOf(section), REGISTRATIONS)
  }

  // ------------------------------------------------------------- the rows

  predicate IsForeign(rows: map<string, Json>, id: string, own: string) {
    id in rows && id != "" && id != own && rows[id] != Null
  }

  /** The rows some other installation wrote, in whatever shape. */
  function ForeignPushRows(section: Json, own: string): map<string, Json> {
    var rows := RowsOf(section);
    map id | id in rows && IsForeign(rows, id, own) :: rows[id]
  }

  method CollectForeign(section: Json, own: string) returns (out: map<string, Json>)
    ensures out == ForeignPushRows(section, own)
  {
    var rows := RowsOf(section);
    out := map[];
    var left := rows.Keys;
    while left != {}
      invariant left <= rows.Keys
      invariant out == map id | id in rows && id !in left && IsForeign(rows, id, own) :: rows[id]
      decreases left
    {
      var id :| id in left;
      if id != "" && id != own && rows[id] != Null {
        out := out[id := rows[id]];
      }
      left := left - {id};
    }
  }

  // ------------------------------------------------------------- the stamps

  datatype Seen = Seen(bot: string, at: int)

  /** A bare number, or an object with a positive `at`; anything else is unreadable. */
  function SeenEntry(j: Json): Option<Seen> {
    match j
    case Num(n) => if n > 0.0 then Some(Seen("", n.Floor)) else None
    case Obj(fields) =>
      if "at" in fields && fields["at"].Num? && fields["at"].number > 0.0 then
        Some(Seen(if "bot" in fields && fields["bot"].Text? then fields["bot"].text else "", fields["at"].number.Floor))
      else None
    case _ => None
  }

  function SeenOf(section: Json): map<string, Seen> {
    var raw := Member(PushOf(section), SEEN);
    map id | id in raw && id != "" && SeenEntry(raw[id]).Some? :: SeenEntry(raw[id]).value
  }

  predicate Kept(entry: Seen, now: int) {
    entry.at > 0 && now - entry.at <= SEEN_TTL_SECONDS
  }

  /** A gateway that does not read the newer shape is given the bare number. */
  function SeenJson(entry: Seen, perChat: bool): Json {
    if perChat then Obj(map["bot" := Text(entry.bot), "at" := Num(entry.at as real)]) else Num(entry.at as real)
  }

  // -------------------------------------------------------------- the row

  const PUSH_SECTION_VERSION := 1.0
  const PUSH_TYPES := ["message", "request", "cron", "cron_done", "cron_failed", "turn_done", "turn_failed"]

  /** Where a notification is sent: never the fields of both transports. */
  datatype Address = Expo(token: string) | WebPush(endpoint: string, p256dh: string, auth: string)

  type Types = map<string, bool>

  /** A device's registration; an address that does not parse gives an empty gateway key. */
  datatype Registration = Registration(gatewayKey: string, address: Address, platform: string, types: Types, preview: bool,
                                       updatedAt: int)

  predicate Wants(types: Types, name: string) {
    name in types && types[name]
  }

  predicate NoTypeWanted(types: Types) {
    forall i :: 0 <= i < |PUSH_TYPES| ==> !Wants(types, PUSH_TYPES[i])
  }

  function AddressFields(address: Address): map<string, Json> {
    match address
    case Expo(token) => map["transport" := Text("expo"), "token" := Text(token)]
    case WebPush(endpoint, p256dh, auth) =>
      map["transport" := Text("webpush"), "endpoint" := Text(endpoint),
          "keys" := Obj(map["p256dh" := Text(p256dh), "auth" := Text(auth)])]
  }

  function RowFor(own: Registration): Json {
    Obj(map["v" := Num(PUSH_SECTION_VERSION), "platform" := Text(own.platform), "types" := FlagsOf(own.types),
            "preview" := Flag(own.preview), "updatedAt" := Num(own.updatedAt as real)]
        + (if own.gatewayKey != "" then map["gatewayKey" := Text(own.gatewayKey)] else map[])
        + AddressFields(own.address))
  }

  function FlagsOf(flags: map<string, bool>): Json {
    Obj(map name | name in flags :: Flag(flags[name]))
  }

  // ------------------------------------------------------------ the section

  /**
   * What one device writes from: its id, its registration if it is on, the stamps it knows, and the
   * types each chat overrides.
   */
  datatype Device = Device(id: string, own: Option<Registration>, seen: map<string, Seen>, perBot: map<string, Types>, now: int,
                           perChat: bool)

  /** A device that is off, or that asks about nothing, has no row. */
  function OwnRow(d: Device): Option<Json> {
    if d.own.Some? && d.id != "" && !NoTypeWanted(d.own.value.types) then Some(RowFor(d.own.value)) else None
  }

  function Registrations(others: map<string, Json>, d: Device): map<string, Json> {
    if OwnRow(d).Some? then others[d.id := OwnRow(d).value] else others
  }

  /** Only the chats that override anything. */
  function PerBot(d: Device): map<string, Json> {
    map bot | bot in d.perBot && bot != "" && d.perBot[bot] != map[] :: FlagsOf(d.perBot[bot])
  }

  function Swept(d: Device): map<string, Json> {
    map id | id in d.seen && Kept(d.seen[id], d.now) :: SeenJson(d.seen[id], d.perChat)
  }

  /** Nothing to say is no section at all. */
  function PushSectionFor(others: map<string, Json>, d: Device): Option<Json> {
    var registrations, seen := Registrations(others, d), Swept(d);
    if registrations == map[] && seen == map[] && PerBot(d) == map[] then None
    else
      var section := map[REGISTRATIONS := Obj(registrations), SEEN := Obj(seen)];
      Some(Obj(if PerBot(d) == map[] then section else section["perBot" := Obj(PerBot(d))]))
  }

  /** The app section a device writes after it read `section`: its push half replaced, the rest as it was. */
  function WrittenBy(section: Json, d: Device): Json {
    var fields := if section.Obj? then section.fields else map[];
    var push := PushSectionFor(ForeignPushRows(section, d.id), d);
    Obj(if push.Some? then fields[PUSH := push.value] else fields - {PUSH})
  }

  function AfterAll(section: Json, devices: seq<Device>): Json
    decreases |devices|
  {
    if devices == [] then section else WrittenBy(AfterAll(section, devices[..|devices| - 1]), devices[|devices| - 1])
  }

  // ---------------------------------------------------------------- proofs

  lemma KeysDiffer()
    ensures REGISTRATIONS != SEEN && REGISTRATIONS != "perBot" && SEEN != "perBot"
  {
  }

  lemma WrittenRows(section: Json, d: Device)
    ensures RowsOf(WrittenBy(section, d)) == Registrations(ForeignPushRows(section, d.id), d)
    ensures Member(PushOf(WrittenBy(section, d)), SEEN) == Swept(d)
  {
    KeysDiffer();
  }

  /** The row an installation has: the one its last write made of its switches, or what was there before any. */
  function LastRow(section: Json, devices: seq<Device>, id: string): Option<Json>
    decreases |devices|
  {
    if devices == [] then (if id in RowsOf(section) && RowsOf(section)[id] != Null then Some(RowsOf(section)[id]) else None)
    else if devices[|devices| - 1].id == id then OwnRow(devices[|devices| - 1])
    else LastRow(section, devices[..|devices| - 1], id)
  }

  /**
   * However many devices write one after the other, every installation's row is byte for byte the last
   * one it wrote itself, absent if at that write it was off or every type it could ask about was; a row
   * nobody wrote in between is untouched, whatever its shape.
   */
  lemma {:induction false} EveryRowIsItsOwners(section: Json, devices: seq<Device>, id: string)
    requires id != "" && devices != []
    ensures var rows := RowsOf(AfterAll(section, devices));
            (if id in rows then Some(rows[id]) else None) == LastRow(section, devices, id)
    decreases |devices|
  {
    var before, last := devices[..|devices| - 1], devices[|devices| - 1];
    WrittenRows(AfterAll(section, before), last);
    if last.id != id && before != [] {
      EveryRowIsItsOwners(section, before, id);
      NeverNull(section, before, id);
    }
  }

  lemma {:induction false} NeverNull(section: Json, devices: seq<Device>, id: string)
    ensures LastRow(section, devices, id) != Some(Null)
    decreases |devices|
  {
    if devices != [] {
      NeverNull(section, devices[..|devices| - 1], id);
    }
  }

  /** A type as the notifier reads a row: absent, and anything but `true`, is off. */
  predicate Asks(row: Json, name: string) {
    var types := Member(row, "types"); name in types && types[name] == Flag(true)
  }

  lemma RowHolds(own: Registration)
    ensures var row := RowFor(own).fields;
            && "types" in row && row["types"] == FlagsOf(own.types)
            && ("token" in row <==> own.address.Expo?)
            && ("endpoint" in row <==> own.address.WebPush?) && ("keys" in row <==> own.address.WebPush?)
  {
  }

  lemma FlagsAsk(row: map<string, Json>, types: Types, name: string)
    requires "types" in row && row["types"] == FlagsOf(types)
    ensures Asks(Obj(row), name) <==> Wants(types, name)
  {
  }

  /**
   * A device has a row exactly when it is on and wants something, and the row asks for exactly what it
   * wants, at its own address and with the fields of no other transport.
   */
  lemma ARowSaysWhatIsWanted(d: Device, name: string)
    requires d.id != ""
    ensures OwnRow(d).Some? <==> d.own.Some? && exists i :: 0 <= i < |PUSH_TYPES| && Wants(d.own.value.types, PUSH_TYPES[i])
    ensures OwnRow(d).Some? ==>
              var row, own := OwnRow(d).value, d.own.value;
              && (Asks(row, name) <==> Wants(own.types, name))
              && ("token" in row.fields <==> own.address.Expo?)
              && ("endpoint" in row.fields <==> own.address.WebPush?) && ("keys" in row.fields <==> own.address.WebPush?)
  {
    if OwnRow(d).Some? {
      RowHolds(d.own.value);
      FlagsAsk(RowFor(d.own.value).fields, d.own.value.types, name);
    }
  }

  lemma SeenComesBack(entry: Seen, perChat: bool)
    requires entry.at > 0
    ensures SeenEntry(SeenJson(entry, perChat)) == Some(if perChat then entry else Seen("", entry.at))
  {
  }

  /** A write keeps exactly the stamps of the last day, at the very time they say. */
  lemma StampsOfTheDayStay(section: Json, d: Device, id: string)
    requires id != ""
    ensures var after := SeenOf(WrittenBy(section, d));
            && (id in after <==> id in d.seen && Kept(d.seen[id], d.now))
            && (id in after ==> after[id] == if d.perChat then d.seen[id] else Seen("", d.seen[id].at))
  {
    WrittenRows(section, d);
    if id in d.seen && d.seen[id].at > 0 {
      SeenComesBack(d.seen[id], d.perChat);
    }
  }

  /** A device writes back every stamp it read, or a later one. */
  ghost predicate CarriesOn(section: Json, d: Device) {
    forall id :: id in SeenOf(section) ==> id in d.seen && d.seen[id].at >= SeenOf(section)[id].at
  }

  /** No stamp of the last day is lost, however many devices write in between. */
  lemma {:induction false} AStampOfTheDaySurvives(section: Json, devices: seq<Device>, id: string, at: int)
    requires id in SeenOf(section) && SeenOf(section)[id].at >= at > 0
    requires forall i :: 0 <= i < |devices| ==> CarriesOn(AfterAll(section, devices[..i]), devices[i])
    requires forall i :: 0 <= i < |devices| ==> devices[i].now - at <= SEEN_TTL_SECONDS
    ensures var after := SeenOf(AfterAll(section, devices)); id in after && after[id].at >= at
    decreases |devices|
  {
    if devices != [] {
      var n := |devices| - 1;
      forall i | 0 <= i < n ensures CarriesOn(AfterAll(section, devices[..n][..i]), devices[..n][i]) {
        assert devices[..n][..i] == devices[..i];
      }
      AStampOfTheDaySurvives(section, devices[..n], id, at);
      StampsOfTheDayStay(AfterAll(section, devices[..n]), devices[n], id);
    }
  }
}
