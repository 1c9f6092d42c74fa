/** The settings client as the object it is, between one await and the next. */
module UiMetaSync {
  import opened Prelude
  import S = SettingsSync

  class UiMetaSync {
    var revisions: map<S.Place, int>
    var defaultProfile: Option<string>
    var userId: string
    var perUser: bool
    var legacyApp: Option<S.Section>
    var dirtyBots: seq<string>
    var dirtyApp: bool
    var synced: bool

    ghost function Model(): S.Sync
      reads this
    {
      S.Sync(revisions, defaultProfile, userId, perUser, legacyApp, dirtyBots, dirtyApp, synced)
    }

    constructor ()
      ensures Model() == S.Fresh
    {
      revisions, defaultProfile, userId, perUser := map[], None, "", false;
      legacyApp, dirtyBots, dirtyApp, synced := None, [], false, false;
    }

    method SetUser(user: string)
      modifies this
      ensures Model() == S.SetUser(old(Model()), user)
    {
      if user == userId {
        return;
      }
      userId := user;
      dirtyApp := false;
    }

    method MarkBot(name: string)
      modifies `dirtyBots
      ensures Model() == S.MarkBot(old(Model()), name)
    {
      if name !in dirtyBots {
        dirtyBots := dirtyBots + [name];
      }
    }

    method MarkApp()
      modifies `dirtyApp
      ensures Model() == old(Model()).(dirtyApp := true)
    {
      dirtyApp := true;
    }

    /** A roster that could not be read is a gateway this client cannot sync with. */
    method PullFailed()
      modifies `synced
      ensures Model() == old(Model()).(synced := false)
    {
      synced := false;
    }

    method Pull(roster: S.Roster) returns (remote: S.Snapshot)
      modifies this
      ensures Model() == S.Pulled(old(Model()), roster) && remote == S.Remote(old(Model()), roster)
    {
      var appKey := if userId == "" then None else Some(S.AppKeyFor(userId));
      var bots: map<string, S.Section> := map[];
      var app: Option<S.Section> := None;
      var legacy: Option<S.Section> := None;
      ghost var start := S.Reading(revisions, defaultProfile, map[], None, None);
      assert appKey == S.AppKey(Model());
      var i := 0;
      while i < |roster.rows|
        invariant 0 <= i <= |roster.rows|
        invariant S.Reading(revisions, defaultProfile, bots, app, legacy) == S.ReadRows(start, roster.rows[..i], appKey)
        modifies `revisions, `defaultProfile
      {
        ghost var before := S.ReadRows(start, roster.rows[..i], appKey);
        var row := roster.rows[i];
        if row.name != "" {
          var section := S.ReadSection(row.meta, S.HERMIE_KEY);
          revisions := revisions[S.Place(row.name, S.HERMIE_KEY) := S.RevisionIn(row.revisions, S.HERMIE_KEY)];
          if section.Some? {
            bots := bots[row.name := section.value];
          }
          if row.isDefault {
            defaultProfile := Some(row.name);
            legacy := S.ReadSection(row.meta, S.HERMIE_APP_KEY);
            revisions := revisions[S.Place(row.name, S.HERMIE_APP_KEY) := S.RevisionIn(row.revisions, S.HERMIE_APP_KEY)];
            if appKey.Some? {
              revisions := revisions[S.Place(row.name, appKey.value) := S.RevisionIn(row.revisions, appKey.value)];
              app := S.ReadSection(row.meta, appKey.value);
            }
          }
        }
        assert S.Reading(revisions, defaultProfile, bots, app, legacy) == S.ReadRow(before, row, appKey);
        assert roster.rows[..i + 1][..i] == roster.rows[..i];
        i := i + 1;
      }
      assert roster.rows[..i] == roster.rows;
      synced := true;
      perUser := roster.perUser;
      legacyApp := legacy;
      if appKey.Some? && app.None? && legacy.Some? {
        return S.Snapshot(Some(S.InheritedFromLegacy(legacy.value)), bots, None, if perUser then None else legacy, true);
      }
      remote := S.Snapshot(app, bots, app, if perUser then app else legacy, false);
    }

    method NoteNewerLocalApp(remote: S.Snapshot, local: S.Local)
      modifies `dirtyApp
      ensures Model() == S.NoteNewerLocalApp(old(Model()), remote, local)
    {
      if remote.migrated {
        return;
      }
      if local.app.Some? && S.AppStampOf(local.app) > S.AppStampOf(remote.app) {
        dirtyApp := true;
      }
    }

    method SeedWhatTheGatewayLacks(remote: S.Snapshot, local: S.Local)
      modifies `dirtyApp, `dirtyBots
      ensures Model() == S.SeedWhatTheGatewayLacks(old(Model()), remote, local)
    {
      if remote.app.None? && local.app.Some? {
        dirtyApp := true;
      }
      ghost var start := Model();
      var i := 0;
      while i < |local.names|
        invariant 0 <= i <= |local.names|
        invariant Model() == S.SeedBots(start, local.names[..i], remote, local)
      {
        if local.names[i] in local.bots && local.names[i] !in remote.bots {
          MarkBot(local.names[i]);
        }
        assert local.names[..i + 1][..i] == local.names[..i];
        i := i + 1;
      }
      assert local.names[..i] == local.names;
    }

    method WithPendingKept(remote: S.Snapshot, local: S.Local) returns (kept: S.Snapshot)
      ensures kept == S.WithPendingKept(Model(), remote, local)
    {
      if !dirtyApp && dirtyBots == [] {
        return remote;
      }
      var bots := remote.bots;
      var i := 0;
      while i < |dirtyBots|
        invariant 0 <= i <= |dirtyBots|
        invariant bots == S.KeepBots(remote.bots, dirtyBots[..i], local)
      {
        if dirtyBots[i] in local.bots {
          bots := bots[dirtyBots[i] := local.bots[dirtyBots[i]]];
        } else {
          bots := bots - {dirtyBots[i]};
        }
        assert dirtyBots[..i + 1][..i] == dirtyBots[..i];
        i := i + 1;
      }
      assert dirtyBots[..i] == dirtyBots;
      kept := S.Snapshot(if S.AppLocalWins(dirtyApp, local.app, remote.app) then local.app else remote.app,
                         bots, remote.app, remote.pushHome, false);
    }

    /** `reconcile` up to `apply`: what the app is handed. */
    method ReconcileRead(roster: S.Roster, local: S.Local) returns (remote: S.Snapshot, offered: S.Snapshot)
      modifies this
      ensures remote == S.Remote(old(Model()), roster) && offered == S.Offered(old(Model()), roster, local)
      ensures Model() == S.NoteNewerLocalApp(S.Pulled(old(Model()), roster), remote, local)
    {
      remote := Pull(roster);
      NoteNewerLocalApp(remote, local);
      offered := WithPendingKept(remote, local);
    }

    /** `reconcile` from there to the flush, with what the app holds once it adopted the offer. */
    method ReconcileSeed(remote: S.Snapshot, adopted: S.Local)
      modifies this
      ensures var seeded := S.SeedWhatTheGatewayLacks(old(Model()), remote, adopted);
              Model() == if remote.migrated then seeded.(dirtyApp := true) else seeded
    {
      SeedWhatTheGatewayLacks(remote, adopted);
      if remote.migrated {
        dirtyApp := true;
      }
    }

    /** `run`, up to the first request: the dirty sections, one entry per profile. */
    method Batches() returns (batches: seq<S.Batch>)
      ensures batches == S.Batches(Model())
    {
      batches := [];
      var i := 0;
      while i < |dirtyBots|
        invariant 0 <= i <= |dirtyBots|
        invariant batches == S.BotBatches(dirtyBots)[..i]
      {
        batches := batches + [S.Batch(dirtyBots[i], [S.HERMIE_KEY])];
        i := i + 1;
      }
      assert S.BotBatches(dirtyBots)[..i] == S.BotBatches(dirtyBots);
      if dirtyApp && defaultProfile.Some? && userId != "" {
        var keys := [S.AppKeyFor(userId)];
        if !perUser {
          keys := keys + [S.HERMIE_APP_KEY];
        }
        assert keys == S.AppKeys(Model());
        batches := At(batches, defaultProfile.value, keys);
      }
    }

    /** The entry of one profile, created behind the others if it is not there yet. */
    static method At(batches: seq<S.Batch>, profile: string, keys: seq<string>) returns (r: seq<S.Batch>)
      ensures r == S.AddKeys(batches, profile, keys)
    {
      var i := 0;
      while i < |batches| && batches[i].profile != profile
        invariant 0 <= i <= |batches|
        invariant S.AddKeys(batches, profile, keys) == batches[..i] + S.AddKeys(batches[i..], profile, keys)
      {
        assert batches[i..][1..] == batches[i + 1..];
        assert batches[..i] + [batches[i]] == batches[..i + 1];
        i := i + 1;
      }
      if i == |batches| {
        return batches + [S.Batch(profile, keys)];
      }
      r := batches[..i] + [S.Batch(profile, batches[i].keys + keys)] + batches[i + 1..];
      assert batches[i..][1..] == batches[i + 1..];
    }

    /** The bytes of one attempt, taken from the app at this moment. */
    method Attempt(batch: S.Batch, local: S.Local) returns (request: S.Request)
      ensures request == S.Attempt(Model(), batch, local)
    {
      var sections: map<string, Option<S.Section>> := map[];
      var expected: map<string, int> := map[];
      var i := 0;
      while i < |batch.keys|
        invariant 0 <= i <= |batch.keys|
        invariant sections == S.SectionsFor(Model(), batch.profile, batch.keys[..i], local)
        invariant expected == S.ExpectedFor(Model(), batch.profile, batch.keys[..i])
      {
        var key := batch.keys[i];
        var place := S.Place(batch.profile, key);
        sections := sections[key := SectionFor(batch.profile, key, local)];
        expected := expected[key := if place in revisions then revisions[place] else 0];
        OneMoreKey(Model(), batch, i, local);
        i := i + 1;
      }
      assert batch.keys[..i] == batch.keys;
      request := S.Request(batch.profile, sections, expected);
    }

    static lemma OneMoreKey(s: S.Sync, batch: S.Batch, i: nat, local: S.Local)
      requires i < |batch.keys|
      ensures var key, before, after := batch.keys[i], batch.keys[..i], batch.keys[..i + 1];
              && S.SectionsFor(s, batch.profile, after, local) ==
                 S.SectionsFor(s, batch.profile, before, local)[key := S.SectionFor(s, batch.profile, key, local)]
              && S.ExpectedFor(s, batch.profile, after) ==
                 S.ExpectedFor(s, batch.profile, before)[key := S.Known(s, S.Place(batch.profile, key))]
    {
      assert forall k :: k in batch.keys[..i + 1] <==> k in batch.keys[..i] || k == batch.keys[i];
    }

    function SectionFor(profile: string, key: string, local: S.Local): (section: Option<S.Section>)
      reads this
      ensures section == S.SectionFor(Model(), profile, key, local)
    {
      if key == S.HERMIE_KEY then
        if profile in local.bots then Some(local.bots[profile]["v" := S.Num(S.SECTION_VERSION)]) else None
      else if key == S.HERMIE_APP_KEY then S.LegacyPushSection(legacyApp, local.app)
      else if local.app.None? then None
      else
        var app := local.app.value["v" := S.Num(S.SECTION_VERSION)];
        Some(if perUser then app else app - {"push"})
    }

    /** The revisions of an answer, and its conflicts' behind them. */
    method NoteAnswer(profile: string, answer: S.Answer)
      modifies `revisions
      ensures Model() == S.NoteAnswer(old(Model()), profile, answer)
    {
      Note(profile, answer.revisions);
      Note(profile, answer.conflicts);
      ToldTwice(old(revisions), profile, answer.revisions, answer.conflicts);
    }

    static ghost function About(profile: string, told: map<string, int>): map<S.Place, int> {
      map place: S.Place | place in S.TellsAbout(profile, told.Keys) :: told[place.key]
    }

    static lemma ToldTwice(base: map<S.Place, int>, profile: string, first: map<string, int>, second: map<string, int>)
      ensures base + About(profile, first) + About(profile, second) == base + About(profile, first + second)
    {
    }

    method Note(profile: string, told: map<string, int>)
      modifies `revisions
      ensures revisions == old(revisions) + About(profile, told)
    {
      var left := told.Keys;
      while left != {}
        invariant left <= told.Keys
        invariant revisions ==
                  old(revisions) + (map place: S.Place | place in S.TellsAbout(profile, told.Keys - left) :: told[place.key])
        decreases left
      {
        var key :| key in left;
        revisions := revisions[S.Place(profile, key) := told[key]];
        left := left - {key};
      }
      assert told.Keys - left == told.Keys;
    }

    method ClearDirty(profile: string, keys: seq<string>)
      modifies `dirtyBots, `dirtyApp
      ensures Model() == S.ClearDirty(old(Model()), profile, keys)
    {
      ghost var start := Model();
      var i := 0;
      while i < |keys|
        invariant 0 <= i <= |keys|
        invariant Model() == S.ClearDirty(start, profile, keys[..i])
      {
        if keys[i] == S.HERMIE_KEY {
          dirtyBots := S.Without(dirtyBots, profile);
        } else {
          dirtyApp := false;
        }
        assert keys[..i + 1][..i] == keys[..i];
        i := i + 1;
      }
      assert keys[..i] == keys;
    }

    /** What one `profiles.configure` answered; `settled` when nothing was refused. */
    method TakeAnswer(batch: S.Batch, answer: S.Answer) returns (settled: bool)
      modifies this
      ensures settled <==> answer.conflicts == map[]
      ensures var noted := S.NoteAnswer(old(Model()), batch.profile, answer);
              Model() == if settled then S.ClearDirty(noted, batch.profile, batch.keys) else noted
    {
      NoteAnswer(batch.profile, answer);
      settled := answer.conflicts == map[];
      if settled {
        ClearDirty(batch.profile, batch.keys);
      }
    }

    /** The re-read behind a conflict: no seeding and no flush. */
    method Reread(roster: S.Roster, local: S.Local) returns (merged: S.Snapshot)
      modifies this
      ensures Model() == S.Pulled(old(Model()), roster)
      ensures merged == S.WithPendingKept(Model(), S.Remote(old(Model()), roster), local)
    {
      var remote := Pull(roster);
      merged := WithPendingKept(remote, local);
    }

    method Reset()
      modifies this
      ensures Model() == S.Fresh
    {
      revisions, dirtyBots, dirtyApp, defaultProfile := map[], [], false, None;
      userId, perUser, legacyApp, synced := "", false, None, false;
    }
  }
}
