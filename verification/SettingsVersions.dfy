/** Sections of a version this build does not know: when exactly one is lost. */
module SettingsVersions {
  import opened Prelude
  import opened SettingsSync
  import opened SettingsWorld
  import opened SettingsKeys
  import opened SettingsStamps
  import opened SettingsExposure

  // ------------------------------------------------------------- versions

  function VersionIn(bag: map<string, Json>, key: string): real {
    if key in bag && bag[key].Obj? && "v" in bag[key].fields && bag[key].fields["v"].Num? then bag[key].fields["v"].number
    else 0.0
  }

  /** The version of what the gateway holds; nothing, and nothing versioned, is version 0. */
  function VersionAt(g: Gateway, place: Place): real {
    if place.profile in g then VersionIn(g[place.profile].bag, place.key) else 0.0
  }

  /** A section of a later version is there, and reads as absent. */
  lemma LaterReadsAsAbsent(g: Gateway, place: Place)
    requires VersionAt(g, place) > SECTION_VERSION
    ensures place.profile in g && place.key in g[place.profile].bag
    ensures ReadSection(Obj(g[place.profile].bag), place.key).None?
  {
  }

  // ------------------------------------------------------------- invariant

  /** Whatever is sent is of this build's version. */
  ghost predicate VersionedRequest(request: Request) {
    forall key :: key in request.sections && request.sections[key].Some? ==>
      "v" in request.sections[key].value && request.sections[key].value["v"] == Num(SECTION_VERSION)
  }

  ghost predicate Versioned(flow: Flow) {
    flow.Sending? ==> VersionedRequest(flow.request)
  }

  ghost predicate AllVersioned(w: World) {
    forall i :: 0 <= i < |w.devices| ==> Versioned(w.devices[i].flow)
  }

  lemma AttemptVersioned(s: Sync, batch: Batch, local: Local)
    ensures VersionedRequest(Attempt(s, batch, local))
  {
  }

  lemma SendNextVersioned(d: Device, rest: seq<Batch>)
    ensures Versioned(SendNext(d, rest).flow)
  {
    if rest != [] {
      AttemptVersioned(d.sync, rest[0], d.local);
    }
  }

  lemma BeginFlushVersioned(d: Device)
    requires Versioned(d.flow)
    ensures Versioned(BeginFlush(d).flow)
  {
    if d.flow.Idle? {
      SendNextVersioned(d, Batches(d.sync));
    }
  }

  lemma NextAttemptVersioned(d: Device, batch: Batch, attempt: nat, rest: seq<Batch>)
    ensures Versioned(NextAttempt(d, batch, attempt, rest).flow)
  {
    AttemptVersioned(d.sync, batch, d.local);
    SendNextVersioned(d, rest);
  }

  lemma TakingAnswerVersioned(d: Device)
    requires d.flow.Sending? && d.flow.reply.Some?
    ensures Versioned(TakingAnswer(d).flow)
  {
    var noted := NoteAnswer(d.sync, d.flow.batch.profile, d.flow.reply.value);
    SendNextVersioned(d.(sync := ClearDirty(noted, d.flow.batch.profile, d.flow.batch.keys)), d.flow.rest);
  }

  lemma LocalVersioned(w: World, a: Action, home: Place)
    requires Enabled(w, a) && !a.Foreign? && !a.ApplyWrite? && Versioned(w.devices[a.i].flow)
    ensures Versioned(Next(w, a, home).devices[a.i].flow)
  {
    var d := w.devices[a.i];
    match a
    case TakeRoster(_, j, adopted) =>
      BeginFlushVersioned(d.(sync := Reconciled(d.sync, d.pulls[j].roster, d.local, adopted), local := adopted,
                             pulls := DropAt(d.pulls, j)));
    case Flush(_) => BeginFlushVersioned(d);
    case LoseWrite(_) => SendNextVersioned(d.(sync := d.sync.(synced := false)), d.flow.rest);
    case TakeAnswer(_) => TakingAnswerVersioned(d);
    case LoseReread(_) =>
      NextAttemptVersioned(d.(sync := d.sync.(synced := false)), d.flow.batch, d.flow.attempt, d.flow.rest);
    case TakeReread(_, adopted) =>
      NextAttemptVersioned(d.(sync := Pulled(d.sync, d.flow.roster.value), local := adopted),
                           d.flow.batch, d.flow.attempt, d.flow.rest);
    case _ =>
  }

  lemma StepVersioned(w: World, a: Action, home: Place)
    requires AllVersioned(w) && Enabled(w, a)
    ensures AllVersioned(Next(w, a, home))
  {
    if !a.Foreign? && !a.ApplyWrite? {
      OthersStay(w, a, home);
      LocalVersioned(w, a, home);
    }
  }

  lemma {:induction false} RunVersioned(w: World, actions: seq<Action>, home: Place)
    requires AllVersioned(w) && Run(w, actions, home).Some?
    ensures AllVersioned(Run(w, actions, home).value)
    decreases |actions|
  {
    if actions != [] {
      StepVersioned(w, actions[0], home);
      RunVersioned(Next(w, actions[0], home), actions[1..], home);
    }
  }

  // -------------------------------------------------- exactly when it is lost

  function SentVersion(section: Option<Section>): real {
    if section.Some? then SECTION_VERSION else 0.0
  }

  /** The request names the key, at the revision the gateway has. */
  predicate Overwrites(g: Gateway, request: Request, place: Place) {
    && request.profile == place.profile && place.key in request.sections
    && place.key in request.expected && request.expected[place.key] == RevisionAt(g, place)
  }

  lemma AppliedVersion(w: World, i: nat, place: Place, accepted: set<Write>)
    requires Enabled(w, ApplyWrite(i)) && DeviceNames(w.devices[i], accepted) && Versioned(w.devices[i].flow)
    ensures var request := w.devices[i].flow.request;
            VersionAt(Applied(w, i).gateway, place) ==
              if Overwrites(w.gateway, request, place) then SentVersion(request.sections[place.key])
              else VersionAt(w.gateway, place)
  {
    var request := w.devices[i].flow.request;
    if request.profile == place.profile {
      WrittenHome(w.gateway[place.profile], request, place);
    }
  }

  /**
   * At any moment of any run, a step other than somebody else's own write lowers the version of what
   * the gateway holds at a key exactly when it is a write that names the key, at the gateway's own
   * revision of it, and the section there is of a later version than the one that goes out.
   */
  lemma AVersionGoesDownExactlyWhen(start: World, actions: seq<Action>, home: Place, a: Action, place: Place)
    requires Starting(start) && Run(start, actions, home).Some?
    requires Enabled(Run(start, actions, home).value, a) && !(a.Foreign? && a.place == place)
    ensures var w := Run(start, actions, home).value;
            var w' := Next(w, a, home);
            && (VersionAt(w'.gateway, place) < VersionAt(w.gateway, place) <==>
                  a.ApplyWrite? && var request := w.devices[a.i].flow.request;
                  Overwrites(w.gateway, request, place)
                  && VersionAt(w.gateway, place) > SentVersion(request.sections[place.key]))
            && (VersionAt(w'.gateway, place) < VersionAt(w.gateway, place) ==> VersionAt(w'.gateway, place) <= SECTION_VERSION)
  {
    var w := Run(start, actions, home).value;
    RunNames(start, actions, home);
    RunVersioned(start, actions, home);
    if a.ApplyWrite? {
      assert DeviceNames(w.devices[a.i], w.accepted) && Versioned(w.devices[a.i].flow);
      AppliedVersion(w, a.i, place, w.accepted);
    } else if !a.Foreign? {
      OthersStay(w, a, home);
    }
  }

  // ------------------------------------------------ what a reconcile claims

  /** What a roster of the gateway says of the home key and the anonymous one. */
  lemma {:induction false} ReadRowsDefault(r: Reading, rows: seq<Row>, p: Profile, home: Place, user: string)
    requires home.key == AppKeyFor(user) && home.profile != ""
    requires forall i :: 0 <= i < |rows| && (rows[i].isDefault || rows[i].name == home.profile) ==>
               rows[i] == Row(home.profile, true, Obj(p.bag), p.revisions)
    ensures var read := ReadRows(r, rows, Some(home.key));
            (exists i :: 0 <= i < |rows| && rows[i].isDefault) ==>
              && home in read.revisions && read.revisions[home] == RevisionIn(p.revisions, home.key)
              && read.app == ReadSection(Obj(p.bag), home.key)
              && read.legacy == ReadSection(Obj(p.bag), HERMIE_APP_KEY)
              && read.defaultProfile == Some(home.profile)
    decreases |rows|
  {
    HomeKeyIsItsOwn(home, user);
    if rows != [] {
      var front, last := rows[..|rows| - 1], rows[|rows| - 1];
      assert forall i :: 0 <= i < |front| ==> front[i] == rows[i];
      ReadRowsDefault(r, front, p, home, user);
      if last.isDefault {
        assert last == Row(home.profile, true, Obj(p.bag), p.revisions);
      }
    }
  }

  lemma ReadingsApp(s: Sync, g: Gateway, names: seq<string>, perUser: bool, home: Place, user: string)
    requires Home(g, home, user) && Lists(g, names) && s.userId == user
    ensures var r := ReadingOf(s, ListOf(g, names, perUser));
            && home in r.revisions && r.revisions[home] == RevisionAt(g, home)
            && r.app == ReadSection(Obj(g[home.profile].bag), home.key)
            && r.legacy == ReadSection(Obj(g[home.profile].bag), HERMIE_APP_KEY)
            && r.defaultProfile == Some(home.profile)
  {
    var rows := ListOf(g, names, perUser).rows;
    var i :| 0 <= i < |names| && names[i] == home.profile;
    assert rows[i].isDefault;
    ReadRowsDefault(Reading(s.revisions, s.defaultProfile, map[], None, None), rows, g[home.profile], home, user);
  }

  /** What it says of one bot. */
  lemma {:induction false} ReadRowsBot(r: Reading, rows: seq<Row>, p: Profile, name: string, appKey: Option<string>)
    requires name != "" && name !in r.bots && ReadSection(Obj(p.bag), HERMIE_KEY).None?
    requires appKey.Some? ==> appKey.value != HERMIE_KEY
    requires forall i :: 0 <= i < |rows| && rows[i].name == name ==> rows[i].meta == Obj(p.bag) && rows[i].revisions == p.revisions
    ensures var read := ReadRows(r, rows, appKey);
            && name !in read.bots
            && ((exists i :: 0 <= i < |rows| && rows[i].name == name) ==>
                  Place(name, HERMIE_KEY) in read.revisions
                  && read.revisions[Place(name, HERMIE_KEY)] == RevisionIn(p.revisions, HERMIE_KEY))
    decreases |rows|
  {
    if rows != [] {
      var front, last := rows[..|rows| - 1], rows[|rows| - 1];
      assert forall i :: 0 <= i < |front| ==> front[i] == rows[i];
      ReadRowsBot(r, front, p, name, appKey);
      assert last.name == name ==> last.meta == Obj(p.bag) && last.revisions == p.revisions;
    }
  }

  lemma ReadingsBot(s: Sync, g: Gateway, names: seq<string>, perUser: bool, name: string)
    requires Lists(g, names) && name != "" && name in g && VersionAt(g, Place(name, HERMIE_KEY)) > SECTION_VERSION
    ensures var r := ReadingOf(s, ListOf(g, names, perUser));
            && name !in r.bots && Place(name, HERMIE_KEY) in r.revisions
            && r.revisions[Place(name, HERMIE_KEY)] == RevisionAt(g, Place(name, HERMIE_KEY))
  {
    var rows := ListOf(g, names, perUser).rows;
    LaterReadsAsAbsent(g, Place(name, HERMIE_KEY));
    var i :| 0 <= i < |names| && names[i] == name;
    assert rows[i].name == name;
    if s.userId != "" {
      HomeKeyIsItsOwn(Place(name, AppKeyFor(s.userId)), s.userId);
    }
    ReadRowsBot(Reading(s.revisions, s.defaultProfile, map[], None, None), rows, g[name], name, AppKey(s));
  }

  lemma {:induction false} SeedBotsExactly(s: Sync, names: seq<string>, remote: Snapshot, local: Local, name: string)
    ensures name in SeedBots(s, names, remote, local).dirtyBots <==>
              name in s.dirtyBots || (name in names && name in local.bots && name !in remote.bots)
    decreases |names|
  {
    if names != [] {
      var front, last := names[..|names| - 1], names[|names| - 1];
      assert names == front + [last];
      SeedBotsExactly(s, front, remote, local, name);
    }
  }

  /**
   * What makes a device write over a section it cannot read: for a bot, a change under way or a
   * section of its own for that bot; for the app section, a change under way, a section of its own,
   * or an anonymous section to inherit.
   */
  predicate Claims(s: Sync, g: Gateway, adopted: Local, place: Place)
    requires place.profile in g
  {
    if place.key == HERMIE_KEY then
      place.profile in s.dirtyBots || (place.profile in adopted.names && place.profile in adopted.bots)
    else s.dirtyApp || adopted.app.Some? || ReadSection(Obj(g[place.profile].bag), HERMIE_APP_KEY).Some?
  }

  /** A bot's key, or the person's own. */
  ghost predicate Ours(g: Gateway, place: Place, home: Place) {
    place == home || (place.key == HERMIE_KEY && place.profile in g && place.profile != "")
  }

  lemma AppClaim(s: Sync, g: Gateway, names: seq<string>, perUser: bool, local: Local, adopted: Local, home: Place, user: string)
    requires Home(g, home, user) && Lists(g, names) && s.userId == user
    requires VersionAt(g, home) > SECTION_VERSION
    requires Adopts(local, Offered(s, ListOf(g, names, perUser), local), adopted)
    ensures var after := Reconciled(s, ListOf(g, names, perUser), local, adopted);
            (after.dirtyApp <==> Claims(s, g, adopted, home)) && Known(after, home) == RevisionAt(g, home)
  {
    var roster := ListOf(g, names, perUser);
    var remote := Remote(s, roster);
    HomeKeyIsItsOwn(home, user);
    LaterReadsAsAbsent(g, home);
    ReadingsApp(s, g, names, perUser, home, user);
    ReconciledKeeps(s, roster, local, adopted);
    var noted := NoteNewerLocalApp(Pulled(s, roster), remote, local);
    SeedBotsKeeps(if remote.app.None? && adopted.app.Some? then noted.(dirtyApp := true) else noted,
                  adopted.names, remote, adopted);
  }

  lemma BotClaim(s: Sync, g: Gateway, names: seq<string>, perUser: bool, local: Local, adopted: Local, name: string)
    requires Lists(g, names) && name != "" && name in g && VersionAt(g, Place(name, HERMIE_KEY)) > SECTION_VERSION
    ensures var after := Reconciled(s, ListOf(g, names, perUser), local, adopted);
            && (name in after.dirtyBots <==> Claims(s, g, adopted, Place(name, HERMIE_KEY)))
            && Known(after, Place(name, HERMIE_KEY)) == RevisionAt(g, Place(name, HERMIE_KEY))
  {
    var roster := ListOf(g, names, perUser);
    var remote := Remote(s, roster);
    ReadingsBot(s, g, names, perUser, name);
    ReconciledKeeps(s, roster, local, adopted);
    var noted := NoteNewerLocalApp(Pulled(s, roster), remote, local);
    SeedBotsExactly(if remote.app.None? && adopted.app.Some? then noted.(dirtyApp := true) else noted,
                    adopted.names, remote, adopted, name);
  }

  /** Over any gateway, a reconcile queues a write of a section it cannot read exactly when it claims it. */
  lemma AReconcileClaimsExactlyWhen(s: Sync, g: Gateway, names: seq<string>, perUser: bool, local: Local, adopted: Local,
                                    place: Place, home: Place, user: string)
    requires Home(g, home, user) && Lists(g, names) && s.userId == user && Ours(g, place, home)
    requires VersionAt(g, place) > SECTION_VERSION
    requires Adopts(local, Offered(s, ListOf(g, names, perUser), local), adopted)
    ensures var after := Reconciled(s, ListOf(g, names, perUser), local, adopted);
            && (Named(Batches(after), place) <==> Claims(s, g, adopted, place))
            && Known(after, place) == RevisionAt(g, place)
  {
    var after := Reconciled(s, ListOf(g, names, perUser), local, adopted);
    HomeKeyIsItsOwn(home, user);
    ReconciledKeeps(s, ListOf(g, names, perUser), local, adopted);
    ReadingsApp(s, g, names, perUser, home, user);
    AFlushNames(after, place);
    if place.key == HERMIE_KEY {
      BotClaim(s, g, names, perUser, local, adopted, place.profile);
      assert place == Place(place.profile, HERMIE_KEY);
    } else {
      AppClaim(s, g, names, perUser, local, adopted, home, user);
    }
  }

  // --------------------------------------------------------- and then loses

  lemma BuiltLands(w: World, i: nat, place: Place, home: Place)
    requires place.profile in w.gateway && VersionAt(w.gateway, place) > SECTION_VERSION
    requires i < |w.devices| && w.devices[i].flow.Sending? && JustBuilt(w.devices[i]) && Naming(w.devices[i].flow.batch, place)
    requires Known(w.devices[i].sync, place) == RevisionAt(w.gateway, place)
    ensures Enabled(w, ApplyWrite(i))
    ensures VersionAt(Next(w, ApplyWrite(i), home).gateway, place) <= SECTION_VERSION
  {
    var d := w.devices[i];
    assert Place(place.profile, place.key) == place;
    AttemptVersioned(d.sync, d.flow.batch, d.local);
    WrittenHome(w.gateway[place.profile], d.flow.request, place);
  }

  /**
   * In any world in which an idle device takes a roster of what the gateway holds now, it goes on to
   * write over a section of a later version exactly when it claims it; and from there, nobody else
   * writing, the later version is lost.
   */
  lemma AnUnknownVersionIsReplacedExactlyWhen(w: World, i: nat, j: nat, names: seq<string>, perUser: bool, adopted: Local,
                                              place: Place, home: Place, user: string) returns (run: seq<Action>)
    requires Home(w.gateway, home, user) && Lists(w.gateway, names) && Ours(w.gateway, place, home)
    requires Enabled(w, TakeRoster(i, j, adopted)) && w.devices[i].flow.Idle? && w.devices[i].sync.userId == user
    requires w.devices[i].pulls[j].roster == ListOf(w.gateway, names, perUser)
    requires VersionAt(w.gateway, place) > SECTION_VERSION
    ensures var w' := Next(w, TakeRoster(i, j, adopted), home);
            && (Named(Queue(w'.devices[i].flow), place) <==> Claims(w.devices[i].sync, w.gateway, adopted, place))
            && (Claims(w.devices[i].sync, w.gateway, adopted, place) ==>
                  Run(w', run, home).Some? && VersionAt(Run(w', run, home).value.gateway, place) <= SECTION_VERSION)
  {
    var d, w' := w.devices[i], Next(w, TakeRoster(i, j, adopted), home);
    var after := Reconciled(d.sync, d.pulls[j].roster, d.local, adopted);
    AReconcileClaimsExactlyWhen(d.sync, w.gateway, names, perUser, d.local, adopted, place, home, user);
    assert Batches(after) != [] ==> [Batches(after)[0]] + Batches(after)[1..] == Batches(after);
    run := [];
    if Named(Batches(after), place) {
      var turn, sending := ItsTurnComes(w', i, place, home, user);
      BuiltLands(sending, i, place, home);
      OneLeads(sending, ApplyWrite(i), home, user);
      var end := Next(sending, ApplyWrite(i), home);
      LeadsJoin(w', turn, sending, [ApplyWrite(i)], end, home, user);
      run := turn + [ApplyWrite(i)];
      LeadsRuns(w', run, end, home, user);
    }
  }
}
