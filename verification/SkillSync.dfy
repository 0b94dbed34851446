/** Skill synchronisation (internal/domain/service/skill/impl.go, state.go): one tenant's skill
    directory is reconciled with the global skills it is allowed. */
module SkillSync {
  import opened Messages
  import opened Text

  // What readState makes of a .state file.
  datatype StateFile = Missing | Unreadable | Recorded(source: string, hash: string)

  type Files = map<string, string> // relative path to content, without .state

  datatype Entry = File | Dir(state: StateFile, files: Files)

  type Directory = map<string, Entry>

  // A global skill. It may hold a .state file of its own, which is copied along.
  datatype Skill = Skill(name: string, state: StateFile, files: Files)

  type Digest = string -> string

  // hashFile of the skill's SKILL.md
  function CurrentHash(g: Skill, digest: Digest): string
  {
    if "SKILL.md" in g.files then digest(g.files["SKILL.md"]) else ""
  }

  // A file operation succeeds, or fails and leaves anything at all in its directory.
  datatype Io = Done | Fault(left: Option<Entry>)

  // What each file operation of one sync does, by skill name.
  datatype Faults = Faults(
    removeOld: string -> Io, copy: string -> Io, record: string -> Io, cleanup: string -> Io)

  const NO_FAULTS := Faults(_ => Done, _ => Done, _ => Done, _ => Done)

  function At(dir: Directory, name: string): Option<Entry>
  {
    if name in dir then Some(dir[name]) else None
  }

  function With(dir: Directory, name: string, entry: Option<Entry>): (d: Directory)
    ensures forall n :: At(d, n) == if n == name then entry else At(dir, n)
  {
    match entry
    case None => dir - {name}
    case Some(e) => dir[name := e]
  }

  // ---------- what a sync makes of one entry ----------

  predicate FromGlobal(entry: Option<Entry>)
  {
    entry.Some? && entry.value.Dir? && entry.value.state.Recorded? && entry.value.state.source == "global"
  }

  // Neither absent nor synced from the global skills: the tenant's own.
  predicate TenantOwned(entry: Option<Entry>)
  {
    entry.Some? && !FromGlobal(entry)
  }

  predicate UpToDate(entry: Option<Entry>, g: Skill, digest: Digest)
  {
    FromGlobal(entry) && entry.value.state.hash == CurrentHash(g, digest)
  }

  // A complete copy.
  function Copied(g: Skill, digest: Digest): Entry
  {
    Dir(Recorded("global", CurrentHash(g, digest)), g.files)
  }

  // Copying to a free name, and recording it.
  function Installed(g: Skill, digest: Digest, faults: Faults): Option<Entry>
  {
    match faults.copy(g.name)
    case Fault(left) => left
    case Done =>
      match faults.record(g.name)
      case Fault(left) => left
      case Done => Some(Copied(g, digest))
  }

  function SettledSkill(entry: Option<Entry>, g: Skill, digest: Digest, faults: Faults): Option<Entry>
  {
    if TenantOwned(entry) || UpToDate(entry, g, digest) then entry
    else if entry.Some? && faults.removeOld(g.name).Fault? then faults.removeOld(g.name).left
    else Installed(g, digest, faults)
  }

  function SettledOther(entry: Option<Entry>, name: string, faults: Faults): Option<Entry>
  {
    if !FromGlobal(entry) then entry
    else match faults.cleanup(name) case Done => None case Fault(left) => left
  }

  // ---------- the configuration of one sync ----------

  // None: the store, the scan, or MkdirAll failed; ReadDir may fail later.
  datatype Config = Config(
    allowedSkills: Option<seq<string>>, globals: Option<seq<Skill>>, mkdir: bool, listable: bool)

  predicate Ready(c: Config)
  {
    c.allowedSkills.Some? && c.globals.Some? && c.mkdir
  }

  predicate Allowed(allowedSkills: seq<string>, name: string)
  {
    allowedSkills == [] || exists a :: a in allowedSkills && ToLower(a) == ToLower(name)
  }

  ghost predicate Distinct(globals: seq<Skill>)
  {
    forall i, j :: 0 <= i < j < |globals| ==> globals[i].name != globals[j].name
  }

  ghost predicate Wanted(c: Config, g: Skill)
    requires Ready(c)
  {
    g in c.globals.value && Allowed(c.allowedSkills.value, g.name)
  }

  ghost predicate WantedName(c: Config, name: string)
    requires Ready(c)
  {
    exists g :: Wanted(c, g) && g.name == name
  }

  // The directory after one sync, name by name.
  ghost predicate Reconciled(before: Directory, c: Config, digest: Digest, faults: Faults, after: Directory)
  {
    if !Ready(c) then after == before
    else
      && (forall g :: Wanted(c, g) ==> At(after, g.name) == SettledSkill(At(before, g.name), g, digest, faults))
      && (forall name :: !WantedName(c, name) ==>
            At(after, name) == if c.listable then SettledOther(At(before, name), name, faults) else At(before, name))
  }

  // ---------- what follows from it ----------

  // The tenant's own entries survive any sync, whatever fails.
  lemma OwnedKept(
    before: Directory, c: Config, digest: Digest, faults: Faults, after: Directory, name: string)
    requires Reconciled(before, c, digest, faults, after)
    requires TenantOwned(At(before, name))
    ensures At(after, name) == At(before, name)
  {
    hide Allowed;
    if Ready(c) && WantedName(c, name) {
      var g :| Wanted(c, g) && g.name == name;
    }
  }

  datatype Round = Round(config: Config, digest: Digest, faults: Faults)

  ghost predicate Rounds(dirs: seq<Directory>, rounds: seq<Round>)
  {
    && |dirs| == |rounds| + 1
    && forall i :: 0 <= i < |rounds| ==>
         Reconciled(dirs[i], rounds[i].config, rounds[i].digest, rounds[i].faults, dirs[i + 1])
  }

  // Over any series of syncs, with any configurations and failures in between. This also holds of
  // a half-made copy whose record was never written: it has become the tenant's own.
  lemma {:induction false} OwnedForever(dirs: seq<Directory>, rounds: seq<Round>, name: string, i: nat, j: nat)
    requires Rounds(dirs, rounds) && i <= j < |dirs|
    requires TenantOwned(At(dirs[i], name))
    ensures At(dirs[j], name) == At(dirs[i], name)
  {
    hide Reconciled;
    if i == j {
    } else {
      OwnedForever(dirs, rounds, name, i, j - 1);
      var r := rounds[j - 1];
      OwnedKept(dirs[j - 1], r.config, r.digest, r.faults, dirs[j], name);
    }
  }

  ghost predicate CleanSync(before: Directory, c: Config, digest: Digest, after: Directory)
  {
    && Ready(c) && c.listable && Distinct(c.globals.value)
    && Reconciled(before, c, digest, NO_FAULTS, after)
  }

  // Without failures, an entry comes from the global skills exactly if it is an allowed skill at
  // its current hash in a place the tenant did not hold; and every allowed name is present.
  lemma CleanSyncResult(before: Directory, c: Config, digest: Digest, after: Directory, name: string)
    requires CleanSync(before, c, digest, after)
    ensures FromGlobal(At(after, name)) <==> WantedName(c, name) && !TenantOwned(At(before, name))
    ensures forall g :: Wanted(c, g) && g.name == name ==>
      At(after, name).Some? && (FromGlobal(At(after, name)) ==> UpToDate(At(after, name), g, digest))
  {
    hide Allowed, CurrentHash;
    if WantedName(c, name) {
      var g :| Wanted(c, g) && g.name == name;
      assert forall h :: Wanted(c, h) && h.name == name ==> h == g;
    }
  }

  lemma Extensional(a: Directory, b: Directory)
    requires forall name :: At(a, name) == At(b, name)
    ensures a == b
  {
    forall name ensures name in a <==> name in b {
      assert At(a, name) == At(b, name);
    }
    forall name | name in a ensures a[name] == b[name] {
      assert At(a, name) == At(b, name);
    }
  }

  // A second sync changes nothing.
  lemma Idempotent(before: Directory, c: Config, digest: Digest, once: Directory, twice: Directory)
    requires CleanSync(before, c, digest, once) && CleanSync(once, c, digest, twice)
    ensures twice == once
  {
    hide Allowed, CurrentHash;
    forall name ensures At(twice, name) == At(once, name) {
      CleanSyncResult(before, c, digest, once, name);
      if WantedName(c, name) {
        var g :| Wanted(c, g) && g.name == name;
      }
    }
    Extensional(twice, once);
  }

  // A skill's place that the tenant does not hold, after a sync that may fail and one that does
  // not: the skill is there exactly if the first did not leave something of no recorded origin.
  lemma RecoversExactly(
    before: Directory, c: Config, digest: Digest, faults: Faults, mid: Directory, after: Directory, g: Skill)
    requires Ready(c) && Wanted(c, g) && !TenantOwned(At(before, g.name))
    requires Reconciled(before, c, digest, faults, mid) && CleanSync(mid, c, digest, after)
    ensures UpToDate(At(after, g.name), g, digest) <==> !TenantOwned(At(mid, g.name))
    ensures TenantOwned(At(mid, g.name)) ==>
      || (At(before, g.name).Some? && faults.removeOld(g.name).Fault?)
      || faults.copy(g.name).Fault? || faults.record(g.name).Fault?
  {
    hide Allowed, CurrentHash, Reconciled;
    assert At(mid, g.name) == SettledSkill(At(before, g.name), g, digest, faults) by {
      SettledAt(before, c, digest, faults, mid, g);
    }
    SettledAt(mid, c, digest, NO_FAULTS, after, g);
  }

  lemma SettledAt(before: Directory, c: Config, digest: Digest, faults: Faults, after: Directory, g: Skill)
    requires Ready(c) && Wanted(c, g) && Reconciled(before, c, digest, faults, after)
    ensures At(after, g.name) == SettledSkill(At(before, g.name), g, digest, faults)
  {
  }

  // Only SKILL.md is hashed: a synced copy becomes complete exactly if it was, or if the hash moved.
  lemma StaleExactly(before: Directory, c: Config, digest: Digest, after: Directory, g: Skill)
    requires CleanSync(before, c, digest, after) && Wanted(c, g) && FromGlobal(At(before, g.name))
    ensures At(after, g.name) == Some(Copied(g, digest)) <==>
      At(before, g.name) == Some(Copied(g, digest)) || !UpToDate(At(before, g.name), g, digest)
  {
    hide Reconciled;
    SettledAt(before, c, digest, NO_FAULTS, after, g);
  }

  // ---------- the rules of a sync, written out ----------

  // A file, a directory without a readable record, or with a record of another source: never
  // touched, whatever is allowed and whatever fails.
  lemma OwnersKeepTheirs(
    before: Directory, c: Config, digest: Digest, faults: Faults, after: Directory, name: string)
    requires Reconciled(before, c, digest, faults, after) && name in before
    requires match before[name]
             case File => true
             case Dir(Missing, _) => true
             case Dir(Unreadable, _) => true
             case Dir(Recorded(source, _), _) => source != "global"
    ensures name in after && after[name] == before[name]
  {
    hide Reconciled;
    OwnedKept(before, c, digest, faults, after, name);
  }

  // An empty list allows every skill, any other the names on it in any spelling of case.
  lemma AllowedRule(c: Config, g: Skill)
    requires Ready(c)
    ensures var allowed := c.allowedSkills.value;
      Wanted(c, g)
      <==> g in c.globals.value && (allowed == [] || exists a :: a in allowed && ToLower(a) == ToLower(g.name))
  {}

  // A skill that is new, or recorded at another hash, is installed with all its files, recorded
  // with the hash of its SKILL.md.
  lemma InstalledWhole(before: Directory, c: Config, digest: Digest, after: Directory, g: Skill)
    requires CleanSync(before, c, digest, after) && Wanted(c, g) && "SKILL.md" in g.files
    requires g.name in before ==>
      before[g.name].Dir? && before[g.name].state.Recorded? && before[g.name].state.source == "global"
      && before[g.name].state.hash != digest(g.files["SKILL.md"])
    ensures g.name in after && after[g.name].Dir? && after[g.name].files == g.files
    ensures after[g.name].state == Recorded("global", digest(g.files["SKILL.md"]))
  {
    hide Reconciled, Allowed;
    SettledAt(before, c, digest, NO_FAULTS, after, g);
  }

  // A copy at the current hash stays as it is.
  lemma CurrentStays(before: Directory, c: Config, digest: Digest, after: Directory, g: Skill)
    requires CleanSync(before, c, digest, after) && Wanted(c, g) && "SKILL.md" in g.files
    requires g.name in before && before[g.name].Dir?
    requires before[g.name].state == Recorded("global", digest(g.files["SKILL.md"]))
    ensures g.name in after && after[g.name] == before[g.name]
  {
    hide Reconciled, Allowed;
    SettledAt(before, c, digest, NO_FAULTS, after, g);
  }

  // One that is no longer allowed is removed.
  lemma DisallowedGoes(before: Directory, c: Config, digest: Digest, after: Directory, name: string)
    requires CleanSync(before, c, digest, after) && !WantedName(c, name) && name in before
    requires before[name].Dir? && before[name].state.Recorded? && before[name].state.source == "global"
    ensures name !in after
  {
    hide Allowed;
    assert At(after, name) == None;
  }

  // ---------- where that goes wrong ----------

  function Only(g: Skill): Config { Config(Some([]), Some([g]), true, true) }

  lemma OnlyWanted(g: Skill)
    ensures forall h :: Wanted(Only(g), h) <==> h == g
    ensures forall name :: WantedName(Only(g), name) <==> name == g.name
  {
    assert [g][0] == g;
    assert Wanted(Only(g), g);
  }

  // A copy that breaks off before the record is written: the next sync, though nothing fails,
  // leaves the half-made directory as it is.
  lemma InterruptedCopy(g: Skill, digest: Digest, partial: Files)
    ensures var left := Dir(Missing, partial);
            var faults := NO_FAULTS.(copy := _ => Fault(Some(left)));
            var mid: Directory := map[g.name := left];
            && Reconciled(map[], Only(g), digest, faults, mid)
            && CleanSync(mid, Only(g), digest, mid)
            && !UpToDate(At(mid, g.name), g, digest)
  {
    OnlyWanted(g);
  }

  // A copy whose script is out of date, under an unchanged SKILL.md: a clean sync leaves it.
  lemma StaleScript(name: string, text: string, digest: Digest)
    ensures var g := Skill(name, Missing, map["SKILL.md" := text, "run.sh" := "new"]);
            var stale := Dir(Recorded("global", digest(text)), map["SKILL.md" := text, "run.sh" := "old"]);
            && CleanSync(map[name := stale], Only(g), digest, map[name := stale])
            && stale != Copied(g, digest)
  {
    var g := Skill(name, Missing, map["SKILL.md" := text, "run.sh" := "new"]);
    OnlyWanted(g);
    assert g.files["run.sh"] == "new";
  }

  // ---------- the sync ----------

  function LowerAll(names: seq<string>): (lower: set<string>)
    ensures forall n :: n in lower <==> exists a :: a in names && ToLower(a) == n
  {
    set a | a in names :: ToLower(a)
  }

  // Which of the first globals are to be synced.
  ghost predicate SyncedUpTo(globals: seq<Skill>, allowedSkills: seq<string>, i: nat, synced: set<string>)
    requires i <= |globals|
  {
    forall name :: name in synced <==>
      exists j :: 0 <= j < i && globals[j].name == name && Allowed(allowedSkills, name)
  }

  ghost predicate SettledUpTo(
    before: Directory, globals: seq<Skill>, synced: set<string>, i: nat, digest: Digest, faults: Faults,
    now: Directory)
    requires i <= |globals|
  {
    && (forall j :: 0 <= j < i && globals[j].name in synced ==>
          At(now, globals[j].name) == SettledSkill(At(before, globals[j].name), globals[j], digest, faults))
    && (forall name :: name !in synced ==> At(now, name) == At(before, name))
  }

  ghost predicate CleanedUpTo(mid: Directory, synced: set<string>, todo: set<string>, faults: Faults, now: Directory)
  {
    forall name :: At(now, name)
      == if name in synced || name in todo then At(mid, name) else SettledOther(At(mid, name), name, faults)
  }

  lemma SkillStep(
    before: Directory, c: Config, synced: set<string>, i: nat, digest: Digest, faults: Faults, now: Directory)
    requires Ready(c) && Distinct(c.globals.value) && i < |c.globals.value|
    requires SyncedUpTo(c.globals.value, c.allowedSkills.value, i, synced)
    requires SettledUpTo(before, c.globals.value, synced, i, digest, faults, now)
    ensures
      var g := c.globals.value[i];
      var after := With(now, g.name, SettledSkill(At(now, g.name), g, digest, faults));
      if Allowed(c.allowedSkills.value, g.name)
      then
        && SyncedUpTo(c.globals.value, c.allowedSkills.value, i + 1, synced + {g.name})
        && SettledUpTo(before, c.globals.value, synced + {g.name}, i + 1, digest, faults, after)
      else
        && SyncedUpTo(c.globals.value, c.allowedSkills.value, i + 1, synced)
        && SettledUpTo(before, c.globals.value, synced, i + 1, digest, faults, now)
  {
    hide Allowed, SettledSkill, At, With;
  }

  lemma CleanedStarts(mid: Directory, synced: set<string>, todo: set<string>, faults: Faults)
    requires forall name :: name in mid && mid[name].Dir? ==> name in todo
    ensures CleanedUpTo(mid, synced, todo, faults, mid)
  {
  }

  lemma CleanedStep(
    mid: Directory, synced: set<string>, todo: set<string>, name: string, faults: Faults, now: Directory)
    requires name in todo && CleanedUpTo(mid, synced, todo, faults, now)
    ensures CleanedUpTo(mid, synced, todo - {name}, faults,
      if name in synced then now else With(now, name, SettledOther(At(now, name), name, faults)))
  {
    hide At, With, SettledOther;
  }

  lemma Finished(
    before: Directory, c: Config, synced: set<string>, digest: Digest, faults: Faults, mid: Directory,
    after: Directory)
    requires Ready(c)
    requires SyncedUpTo(c.globals.value, c.allowedSkills.value, |c.globals.value|, synced)
    requires SettledUpTo(before, c.globals.value, synced, |c.globals.value|, digest, faults, mid)
    requires if c.listable then CleanedUpTo(mid, synced, {}, faults, after) else after == mid
    ensures Reconciled(before, c, digest, faults, after)
  {
    hide Allowed, SettledSkill, SettledOther, At;
    forall name ensures name in synced <==> WantedName(c, name) {
    }
  }

  lemma Unready(dir: Directory, c: Config, digest: Digest, faults: Faults)
    requires !Ready(c)
    ensures Reconciled(dir, c, digest, faults, dir)
  {
  }

  lemma SyncStarts(before: Directory, globals: seq<Skill>, allowedSkills: seq<string>, digest: Digest, faults: Faults)
    ensures SyncedUpTo(globals, allowedSkills, 0, {})
    ensures SettledUpTo(before, globals, {}, 0, digest, faults, before)
  {
  }

  lemma AllowedIs(allowedSkills: seq<string>, name: string)
    ensures Allowed(allowedSkills, name) <==> allowedSkills == [] || ToLower(name) in LowerAll(allowedSkills)
  {
    hide ToLower;
  }

  class TenantSkills {
    var dir: Directory

    constructor (dir: Directory)
      ensures this.dir == dir
    {
      this.dir := dir;
    }

    // One allowed global skill: keep it, refresh it, install it, or leave the tenant's own alone.
    method SyncSkill(g: Skill, digest: Digest, faults: Faults)
      modifies this
      ensures dir == With(old(dir), g.name, SettledSkill(At(old(dir), g.name), g, digest, faults))
    {
      var globalHash := CurrentHash(g, digest);
      var st := if g.name in dir && dir[g.name].Dir? then dir[g.name].state else Missing;
      if st.Recorded? {
        if st.source == "global" && st.hash == globalHash { return; }
        if st.source != "global" { return; }
        match faults.removeOld(g.name) {
          case Fault(left) =>
            dir := With(dir, g.name, left);
            return;
          case Done =>
            dir := dir - {g.name};
        }
      } else if g.name in dir {
        return;
      }
      match faults.copy(g.name) {
        case Fault(left) =>
          dir := With(dir, g.name, left);
          return;
        case Done =>
          dir := dir[g.name := Dir(g.state, g.files)];
      }
      match faults.record(g.name) {
        case Fault(left) =>
          dir := With(dir, g.name, left);
        case Done =>
          dir := dir[g.name := dir[g.name].(state := Recorded("global", globalHash))];
      }
    }

    // One directory that is no allowed global skill: removed if it once was one.
    method Cleanup(name: string, faults: Faults)
      modifies this
      ensures dir == With(old(dir), name, SettledOther(At(old(dir), name), name, faults))
    {
      if name in dir && dir[name].Dir? && dir[name].state.Recorded? && dir[name].state.source == "global" {
        match faults.cleanup(name) {
          case Fault(left) => dir := With(dir, name, left);
          case Done => dir := dir - {name};
        }
      }
    }

    method Sync(c: Config, digest: Digest, faults: Faults)
      requires c.globals.Some? ==> Distinct(c.globals.value)
      modifies this
      ensures Reconciled(old(dir), c, digest, faults, dir)
    {
      hide At, With, SettledSkill, SettledOther, Allowed, SyncedUpTo, SettledUpTo, CleanedUpTo, Reconciled;
      if !Ready(c) {
        Unready(dir, c, digest, faults);
        return;
      }
      var globals := c.globals.value;
      var allowAll, allowed := c.allowedSkills.value == [], LowerAll(c.allowedSkills.value);
      var synced: set<string> := {};
      ghost var before := dir;
      SyncStarts(before, globals, c.allowedSkills.value, digest, faults);
      for i := 0 to |globals|
        invariant SyncedUpTo(globals, c.allowedSkills.value, i, synced)
        invariant SettledUpTo(before, globals, synced, i, digest, faults, dir)
      {
        AllowedIs(c.allowedSkills.value, globals[i].name);
        SkillStep(before, c, synced, i, digest, faults, dir);
        if !allowAll && ToLower(globals[i].name) !in allowed { continue; }
        synced := synced + {globals[i].name};
        SyncSkill(globals[i], digest, faults);
      }
      ghost var mid := dir;
      if c.listable {
        var todo := set name | name in dir && dir[name].Dir?;
        CleanedStarts(mid, synced, todo, faults);
        while todo != {}
          invariant CleanedUpTo(mid, synced, todo, faults, dir)
          decreases |todo|
        {
          var name :| name in todo;
          CleanedStep(mid, synced, todo, name, faults, dir);
          todo := todo - {name};
          if name in synced { continue; }
          Cleanup(name, faults);
        }
      }
      Finished(before, c, synced, digest, faults, mid, dir);
    }
  }
}
