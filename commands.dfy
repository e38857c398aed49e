/** The settings commands the dashboard calls: the update check's version
    comparison, pinning processes, session categories and named layout
    profiles. Each command edits the shared configuration in place and then
    writes it to disk; the outcome of that write is a parameter (`save`),
    and a failed write is reported after the in-memory change is made. */
module Commands {
  import opened Wrappers
  import opened Text
  import opened Types
  import opened Configuration

  // ---------------------------------------------------------------------------
  // Version comparison

  /** The dot-separated parts that parse as `u64`, in order (the others are
      dropped) */
  function NumericParts(parts: seq<string>): (ns: seq<nat>)
    ensures |ns| <= |parts|
  {
    if |parts| == 0 then []
    else
      var rest := NumericParts(parts[1..]);
      match ParseU64(parts[0])
      case Some(n) => [n] + rest
      case None => rest
  }

  function PartOrZero(ns: seq<nat>, i: nat): nat {
    if i < |ns| then ns[i] else 0
  }

  /** The `parse` closure of `version_is_newer`: drop leading 'v's, keep the
      numeric parts, pad (major, minor, patch) with zeros */
  function ParseVersion(v: string): (r: (nat, nat, nat))
    ensures TrimStartMatches(v, 'v') == "" ==> r == (0, 0, 0)
  {
    var parts := NumericParts(Split(TrimStartMatches(v, 'v'), '.'));
    (PartOrZero(parts, 0), PartOrZero(parts, 1), PartOrZero(parts, 2))
  }

  /** Tuple order: lexicographic */
  predicate TripleGreater(a: (nat, nat, nat), b: (nat, nat, nat)) {
    a.0 > b.0 || (a.0 == b.0 && (a.1 > b.1 || (a.1 == b.1 && a.2 > b.2)))
  }

  /** `version_is_newer(current, latest)`: a newer version never has the
      same numbers, nor a lower major number */
  function VersionIsNewer(current: string, latest: string): (b: bool)
    ensures b ==> ParseVersion(latest) != ParseVersion(current)
    ensures b ==> ParseVersion(latest).0 >= ParseVersion(current).0
  {
    TripleGreater(ParseVersion(latest), ParseVersion(current))
  }

  /** "Newer" is a strict order: never newer than itself, never both ways,
      transitive; and of two versions with different numbers one is newer */
  lemma NewerIsStrictOrder(a: string, b: string, c: string)
    ensures !VersionIsNewer(a, a)
    ensures VersionIsNewer(a, b) ==> !VersionIsNewer(b, a)
    ensures VersionIsNewer(a, b) && VersionIsNewer(b, c) ==> VersionIsNewer(a, c)
    ensures ParseVersion(a) != ParseVersion(b) ==> VersionIsNewer(a, b) || VersionIsNewer(b, a)
  {
    TripleOrder(ParseVersion(a), ParseVersion(b), ParseVersion(c));
  }

  /** The lexicographic order on triples is a strict total order */
  lemma TripleOrder(x: (nat, nat, nat), y: (nat, nat, nat), z: (nat, nat, nat))
    ensures !TripleGreater(x, x)
    ensures TripleGreater(y, x) ==> !TripleGreater(x, y)
    ensures TripleGreater(y, x) && TripleGreater(z, y) ==> TripleGreater(z, x)
    ensures x != y ==> TripleGreater(y, x) || TripleGreater(x, y)
  {
  }

  lemma DecimalNoDot(n: nat)
    ensures '.' !in Decimal(n)
  {
    var s := Decimal(n);
    forall i | 0 <= i < |s|
      ensures s[i] != '.'
    {
      assert IsDigit(s[i]);
    }
  }

  /** Leading 'v's are dropped up to the first other character */
  lemma TrimLeadingV(prefix: string, s: string)
    requires forall i :: 0 <= i < |prefix| ==> prefix[i] == 'v'
    requires |s| > 0 && s[0] != 'v'
    ensures TrimStartMatches(prefix + s, 'v') == s
    decreases |prefix|
  {
    if |prefix| > 0 {
      assert (prefix + s)[1..] == prefix[1..] + s;
      TrimLeadingV(prefix[1..], s);
    } else {
      assert prefix + s == s;
    }
  }

  /** "a.b.c" splits on '.' into its three parts when none holds a '.' */
  lemma SplitThree(a: string, b: string, c: string)
    requires '.' !in a && '.' !in b && '.' !in c
    ensures Split(a + "." + b + "." + c, '.') == [a, b, c]
  {
    var parts := [a, b, c];
    assert parts[1..][1..] == [c];
    assert Join(parts[1..], '.') == b + "." + c;
    assert Join(parts, '.') == a + "." + b + "." + c;
    SplitJoin(parts, '.');
  }

  /** The three decimals parse back */
  lemma NumericPartsPrinted(major: nat, minor: nat, patch: nat)
    requires major <= U64_MAX && minor <= U64_MAX && patch <= U64_MAX
    ensures NumericParts([Decimal(major), Decimal(minor), Decimal(patch)]) == [major, minor, patch]
  {
    var parts := [Decimal(major), Decimal(minor), Decimal(patch)];
    ParseDecimal(major, U64_MAX);
    ParseDecimal(minor, U64_MAX);
    ParseDecimal(patch, U64_MAX);
    assert parts[1..][1..][1..] == [];
    assert NumericParts(parts[1..][1..]) == [patch];
    assert NumericParts(parts[1..]) == [minor, patch];
  }

  /** A version written "major.minor.patch" in decimal, with any number of
      leading 'v's, reads back as its three numbers */
  lemma ParseVersionPrinted(vs: string, major: nat, minor: nat, patch: nat)
    requires forall i :: 0 <= i < |vs| ==> vs[i] == 'v'
    requires major <= U64_MAX && minor <= U64_MAX && patch <= U64_MAX
    ensures ParseVersion(vs + Decimal(major) + "." + Decimal(minor) + "." + Decimal(patch)) == (major, minor, patch)
  {
    var body := Decimal(major) + "." + Decimal(minor) + "." + Decimal(patch);
    assert IsDigit(Decimal(major)[0]);
    assert body[0] == Decimal(major)[0];
    assert vs + Decimal(major) + "." + Decimal(minor) + "." + Decimal(patch) == vs + body;
    TrimLeadingV(vs, body);
    DecimalNoDot(major);
    DecimalNoDot(minor);
    DecimalNoDot(patch);
    SplitThree(Decimal(major), Decimal(minor), Decimal(patch));
    NumericPartsPrinted(major, minor, patch);
  }

  /** On printed versions "newer" is the numeric comparison of (major,
      minor, patch), whatever 'v' prefixes either carries */
  lemma NewerComparesNumbers(cv: string, c0: nat, c1: nat, c2: nat, lv: string, l0: nat, l1: nat, l2: nat)
    requires forall i :: 0 <= i < |cv| ==> cv[i] == 'v'
    requires forall i :: 0 <= i < |lv| ==> lv[i] == 'v'
    requires c0 <= U64_MAX && c1 <= U64_MAX && c2 <= U64_MAX && l0 <= U64_MAX && l1 <= U64_MAX && l2 <= U64_MAX
    ensures VersionIsNewer(cv + Decimal(c0) + "." + Decimal(c1) + "." + Decimal(c2),
                           lv + Decimal(l0) + "." + Decimal(l1) + "." + Decimal(l2))
      <==> TripleGreater((l0, l1, l2), (c0, c1, c2))
  {
    ParseVersionPrinted(cv, c0, c1, c2);
    ParseVersionPrinted(lv, l0, l1, l2);
  }

  // ---------------------------------------------------------------------------
  // Pinned processes

  predicate AnyMatch(names: seq<string>, name: string) {
    exists i :: 0 <= i < |names| && EqIgnoreAsciiCase(names[i], name)
  }

  predicate NoCaseDuplicates(names: seq<string>) {
    forall i, j :: 0 <= i < j < |names| ==> !EqIgnoreAsciiCase(names[i], names[j])
  }

  /** The list after `pin_process`: unchanged when a name matches ignoring
      ASCII case, else with the name appended */
  function Pinned(names: seq<string>, name: string): (r: seq<string>)
    ensures |names| <= |r| <= |names| + 1
    ensures forall x :: x in names ==> x in r
    ensures name in r || AnyMatch(names, name)
  {
    if AnyMatch(names, name) then names else names + [name]
  }

  /** The list after `unpin_process`: every name matching ignoring ASCII
      case removed, the others kept in order */
  function Unpinned(names: seq<string>, name: string): (r: seq<string>)
    ensures |r| <= |names|
  {
    if |names| == 0 then []
    else
      var rest := Unpinned(names[1..], name);
      if EqIgnoreAsciiCase(names[0], name) then rest else [names[0]] + rest
  }

  /** Pinning keeps the list as a prefix, adds at most one name, leaves the
      name (in some case) pinned, and never creates a case-insensitive
      duplicate */
  lemma PinnedShape(names: seq<string>, name: string)
    ensures var r := Pinned(names, name);
      && r[..|names|] == names && |r| <= |names| + 1
      && AnyMatch(r, name)
      && (NoCaseDuplicates(names) ==> NoCaseDuplicates(r))
  {
    var r := Pinned(names, name);
    if !AnyMatch(names, name) {
      assert r[|names|] == name;
      assert r[..|names|] == names;
    }
  }

  /** Unpinning removes every case-insensitive match and nothing else */
  lemma {:induction false} UnpinnedShape(names: seq<string>, name: string)
    ensures !AnyMatch(Unpinned(names, name), name)
    ensures forall x :: x in Unpinned(names, name) <==> x in names && !EqIgnoreAsciiCase(x, name)
    ensures !AnyMatch(names, name) ==> Unpinned(names, name) == names
    decreases |names|
  {
    if |names| > 0 {
      UnpinnedShape(names[1..], name);
      assert names == [names[0]] + names[1..];
      if !AnyMatch(names, name) {
        forall i | 0 <= i < |names[1..]|
          ensures !EqIgnoreAsciiCase(names[1..][i], name)
        {
          assert names[1..][i] == names[i + 1];
        }
      }
    }
  }

  /** Unpinning a name pinned just before restores the list */
  lemma {:induction false} UnpinUndoesPin(names: seq<string>, name: string)
    requires !AnyMatch(names, name)
    ensures Unpinned(Pinned(names, name), name) == names
    decreases |names|
  {
    UnpinnedShape(names, name);
    UnpinAppended(names, name);
  }

  lemma {:induction false} UnpinAppended(names: seq<string>, name: string)
    ensures Unpinned(names + [name], name) == Unpinned(names, name)
    decreases |names|
  {
    if |names| == 0 {
      assert Unpinned([name], name) == Unpinned([], name);
    } else {
      assert (names + [name])[1..] == names[1..] + [name];
      UnpinAppended(names[1..], name);
    }
  }

  /** `pin_process` */
  method PinProcess(cfg: Config, name: string, save: Result<(), string>) returns (r: Result<seq<string>, string>)
    modifies cfg
    ensures cfg.advanced == old(cfg.advanced).(pinnedProcesses := Pinned(old(cfg.advanced.pinnedProcesses), name))
    ensures cfg.general == old(cfg.general) && cfg.pricing == old(cfg.pricing)
    ensures cfg.widget == old(cfg.widget) && cfg.dashboard == old(cfg.dashboard)
    ensures AnyMatch(old(cfg.advanced.pinnedProcesses), name) ==> r == Ok(cfg.advanced.pinnedProcesses)
    ensures !AnyMatch(old(cfg.advanced.pinnedProcesses), name) ==>
      r == (if save.Ok? then Ok(cfg.advanced.pinnedProcesses) else Err(save.error))
  {
    var pinned := cfg.advanced.pinnedProcesses;
    if !AnyMatch(pinned, name) {
      cfg.advanced := cfg.advanced.(pinnedProcesses := pinned + [name]);
      if save.Err? {
        return Err(save.error);
      }
    }
    r := Ok(cfg.advanced.pinnedProcesses);
  }

  /** `unpin_process` */
  method UnpinProcess(cfg: Config, name: string, save: Result<(), string>) returns (r: Result<seq<string>, string>)
    modifies cfg
    ensures cfg.advanced == old(cfg.advanced).(pinnedProcesses := Unpinned(old(cfg.advanced.pinnedProcesses), name))
    ensures cfg.general == old(cfg.general) && cfg.pricing == old(cfg.pricing)
    ensures cfg.widget == old(cfg.widget) && cfg.dashboard == old(cfg.dashboard)
    ensures r == (if save.Ok? then Ok(cfg.advanced.pinnedProcesses) else Err(save.error))
  {
    cfg.advanced := cfg.advanced.(pinnedProcesses := Unpinned(cfg.advanced.pinnedProcesses, name));
    if save.Err? {
      return Err(save.error);
    }
    r := Ok(cfg.advanced.pinnedProcesses);
  }

  // ---------------------------------------------------------------------------
  // Session categories

  predicate HasCategory(cs: seq<SessionCategory>, name: string) {
    exists i :: 0 <= i < |cs| && cs[i].name == name
  }

  predicate UniqueNames(cs: seq<SessionCategory>) {
    forall i, j :: 0 <= i < j < |cs| ==> cs[i].name != cs[j].name
  }

  /** The list after `add_session_category`: appended unless the name is
      taken (names compare exactly) */
  function WithCategory(cs: seq<SessionCategory>, c: SessionCategory): (r: seq<SessionCategory>)
    ensures |cs| <= |r| <= |cs| + 1
    ensures forall x :: x in cs ==> x in r
    ensures c in r || HasCategory(cs, c.name)
  {
    if HasCategory(cs, c.name) then cs else cs + [c]
  }

  /** The list after `remove_session_category` and `delete_layout_profile`:
      every entry called `name` dropped, the others kept in order */
  function RemoveNamed<T>(xs: seq<T>, name: string, nameOf: T -> string): (r: seq<T>)
    ensures |r| <= |xs|
  {
    if |xs| == 0 then []
    else
      var rest := RemoveNamed(xs[1..], name, nameOf);
      if nameOf(xs[0]) == name then rest else [xs[0]] + rest
  }

  /** Removing drops every entry of that name and keeps exactly the others */
  lemma {:induction false} RemoveNamedShape<T>(xs: seq<T>, name: string, nameOf: T -> string)
    ensures forall i :: 0 <= i < |RemoveNamed(xs, name, nameOf)| ==> nameOf(RemoveNamed(xs, name, nameOf)[i]) != name
    ensures forall x :: x in RemoveNamed(xs, name, nameOf) <==> x in xs && nameOf(x) != name
    decreases |xs|
  {
    if |xs| > 0 {
      RemoveNamedShape(xs[1..], name, nameOf);
      assert xs == [xs[0]] + xs[1..];
    }
    var r := RemoveNamed(xs, name, nameOf);
    forall i | 0 <= i < |r|
      ensures nameOf(r[i]) != name
    {
      assert r[i] in r;
    }
  }

  function CategoryName(c: SessionCategory): string { c.name }

  /** Adding keeps names unique and makes the name present */
  lemma WithCategoryShape(cs: seq<SessionCategory>, c: SessionCategory)
    ensures HasCategory(WithCategory(cs, c), c.name)
    ensures UniqueNames(cs) ==> UniqueNames(WithCategory(cs, c))
    ensures WithCategory(cs, c)[..|cs|] == cs
  {
    if !HasCategory(cs, c.name) {
      assert WithCategory(cs, c)[|cs|] == c;
    }
  }

  /** `add_session_category` */
  method AddSessionCategory(cfg: Config, category: SessionCategory, save: Result<(), string>)
    returns (r: Result<seq<SessionCategory>, string>)
    modifies cfg
    ensures cfg.advanced == old(cfg.advanced).(sessionCategories := WithCategory(old(cfg.advanced.sessionCategories), category))
    ensures cfg.general == old(cfg.general) && cfg.pricing == old(cfg.pricing)
    ensures cfg.widget == old(cfg.widget) && cfg.dashboard == old(cfg.dashboard)
    ensures HasCategory(old(cfg.advanced.sessionCategories), category.name) ==> r == Ok(cfg.advanced.sessionCategories)
    ensures !HasCategory(old(cfg.advanced.sessionCategories), category.name) ==>
      r == (if save.Ok? then Ok(cfg.advanced.sessionCategories) else Err(save.error))
  {
    var categories := cfg.advanced.sessionCategories;
    if !HasCategory(categories, category.name) {
      cfg.advanced := cfg.advanced.(sessionCategories := categories + [category]);
      if save.Err? {
        return Err(save.error);
      }
    }
    r := Ok(cfg.advanced.sessionCategories);
  }

  /** `remove_session_category` */
  method RemoveSessionCategory(cfg: Config, name: string, save: Result<(), string>)
    returns (r: Result<seq<SessionCategory>, string>)
    modifies cfg
    ensures cfg.advanced == old(cfg.advanced).(sessionCategories := RemoveNamed(old(cfg.advanced.sessionCategories), name, CategoryName))
    ensures cfg.general == old(cfg.general) && cfg.pricing == old(cfg.pricing)
    ensures cfg.widget == old(cfg.widget) && cfg.dashboard == old(cfg.dashboard)
    ensures r == (if save.Ok? then Ok(cfg.advanced.sessionCategories) else Err(save.error))
  {
    cfg.advanced := cfg.advanced.(sessionCategories := RemoveNamed(cfg.advanced.sessionCategories, name, CategoryName));
    if save.Err? {
      return Err(save.error);
    }
    r := Ok(cfg.advanced.sessionCategories);
  }

  // ---------------------------------------------------------------------------
  // Layout profiles

  /** The index of the first profile called `name` */
  function FindProfile(ps: seq<LayoutProfile>, name: string): (r: Option<nat>)
    ensures r.None? <==> forall i :: 0 <= i < |ps| ==> ps[i].name != name
    ensures r.Some? ==> (r.value < |ps| && ps[r.value].name == name
      && forall i :: 0 <= i < r.value ==> ps[i].name != name)
  {
    if |ps| == 0 then None
    else if ps[0].name == name then Some(0)
    else match FindProfile(ps[1..], name)
      case None => None
      case Some(i) => Some(i + 1)
  }

  /** The lookup stops at the first profile of that name */
  lemma FindProfileAt(ps: seq<LayoutProfile>, name: string, i: nat)
    requires i < |ps| && ps[i].name == name
    requires forall j :: 0 <= j < i ==> ps[j].name != name
    ensures FindProfile(ps, name) == Some(i)
  {
  }

  /** The profile the lookup by name finds */
  function ProfileNamed(ps: seq<LayoutProfile>, name: string): Option<LayoutProfile> {
    match FindProfile(ps, name)
    case Some(i) => Some(ps[i])
    case None => None
  }

  /** The list after `save_layout_profile`: the first profile of that name
      replaced, or the profile appended */
  function Upserted(ps: seq<LayoutProfile>, p: LayoutProfile): (r: seq<LayoutProfile>)
    ensures p in r
    ensures |ps| <= |r| <= |ps| + 1
    ensures forall q :: q in ps && q.name != p.name ==> q in r
  {
    match FindProfile(ps, p.name)
    case Some(i) =>
      var r := ps[i := p];
      assert r[i] == p;
      assert forall q :: q in ps && q.name != p.name ==> q in r by {
        forall q | q in ps && q.name != p.name
          ensures q in r
        {
          var j :| 0 <= j < |ps| && ps[j] == q;
          assert r[j] == q;
        }
      }
      r
    case None => ps + [p]
  }

  function ProfileName(p: LayoutProfile): string { p.name }

  /** Saving grows the list by at most one, and looking the name up then
      finds the saved profile; other names find what they found before */
  lemma UpsertedShape(ps: seq<LayoutProfile>, p: LayoutProfile, other: string)
    requires other != p.name
    ensures |Upserted(ps, p)| == |ps| + (if FindProfile(ps, p.name).Some? then 0 else 1)
    ensures ProfileNamed(Upserted(ps, p), p.name) == Some(p)
    ensures ProfileNamed(Upserted(ps, p), other) == ProfileNamed(ps, other)
  {
    var r := Upserted(ps, p);
    match FindProfile(ps, p.name)
    case Some(i) =>
      FindProfileAt(r, p.name, i);
      FindProfileUnchanged(ps, r, other);
    case None =>
      assert r[..|ps|] == ps;
      FindProfileAt(r, p.name, |ps|);
      FindProfileUnchanged(ps, r, other);
  }

  /** A lookup only sees profiles of the name it looks for */
  lemma FindProfileUnchanged(ps: seq<LayoutProfile>, qs: seq<LayoutProfile>, name: string)
    requires |ps| <= |qs|
    requires forall i :: 0 <= i < |ps| ==> (ps[i].name == name <==> qs[i].name == name)
    requires forall i :: 0 <= i < |ps| && ps[i].name == name ==> qs[i] == ps[i]
    requires forall i :: |ps| <= i < |qs| ==> qs[i].name != name
    ensures ProfileNamed(qs, name) == ProfileNamed(ps, name)
  {
    match FindProfile(ps, name)
    case Some(i) =>
      FindProfileAt(qs, name, i);
    case None =>
      assert forall i :: 0 <= i < |qs| ==> qs[i].name != name;
  }

  /** `save_layout_profile`: snapshot the current tiles and display mode
      under `name` and make it the active profile */
  method SaveLayoutProfile(cfg: Config, name: string, save: Result<(), string>)
    returns (r: Result<seq<LayoutProfile>, string>)
    modifies cfg
    ensures var d := old(cfg.dashboard);
      cfg.dashboard == d.(profiles := Upserted(d.profiles, LayoutProfile(name, d.widgets, d.globalDisplay)),
                          activeProfile := name)
    ensures cfg.general == old(cfg.general) && cfg.pricing == old(cfg.pricing)
    ensures cfg.widget == old(cfg.widget) && cfg.advanced == old(cfg.advanced)
    ensures r == (if save.Ok? then Ok(cfg.dashboard.profiles) else Err(save.error))
  {
    var profile := LayoutProfile(name, cfg.dashboard.widgets, cfg.dashboard.globalDisplay);
    var profiles := cfg.dashboard.profiles;
    match FindProfile(profiles, name) {
      case Some(i) => profiles := profiles[i := profile];
      case None => profiles := profiles + [profile];
    }
    cfg.dashboard := cfg.dashboard.(profiles := profiles, activeProfile := name);
    if save.Err? {
      return Err(save.error);
    }
    r := Ok(cfg.dashboard.profiles);
  }

  /** `load_layout_profile`: apply the first profile called `name`, or fail
      with "Profile '<name>' not found" and change nothing */
  method LoadLayoutProfile(cfg: Config, name: string, save: Result<(), string>)
    returns (r: Result<DashboardConfig, string>)
    modifies cfg
    ensures cfg.general == old(cfg.general) && cfg.pricing == old(cfg.pricing)
    ensures cfg.widget == old(cfg.widget) && cfg.advanced == old(cfg.advanced)
    ensures ProfileNamed(old(cfg.dashboard.profiles), name).None? ==>
      r == Err("Profile '" + name + "' not found") && cfg.dashboard == old(cfg.dashboard)
    ensures ProfileNamed(old(cfg.dashboard.profiles), name).Some? ==>
      var p := ProfileNamed(old(cfg.dashboard.profiles), name).value;
      && cfg.dashboard == old(cfg.dashboard).(widgets := p.widgets, globalDisplay := p.globalDisplay, activeProfile := name)
      && r == (if save.Ok? then Ok(cfg.dashboard) else Err(save.error))
  {
    var profile := ProfileNamed(cfg.dashboard.profiles, name);
    match profile {
      case Some(p) =>
        cfg.dashboard := cfg.dashboard.(widgets := p.widgets, globalDisplay := p.globalDisplay, activeProfile := name);
        if save.Err? {
          return Err(save.error);
        }
        r := Ok(cfg.dashboard);
      case None =>
        r := Err("Profile '" + name + "' not found");
    }
  }

  /** `delete_layout_profile`: drop every profile called `name`; the active
      profile is cleared exactly when it was that name */
  method DeleteLayoutProfile(cfg: Config, name: string, save: Result<(), string>)
    returns (r: Result<seq<LayoutProfile>, string>)
    modifies cfg
    ensures cfg.dashboard.profiles == RemoveNamed(old(cfg.dashboard.profiles), name, ProfileName)
    ensures cfg.dashboard.activeProfile == (if old(cfg.dashboard.activeProfile) == name then "" else old(cfg.dashboard.activeProfile))
    ensures cfg.dashboard.widgets == old(cfg.dashboard.widgets) && cfg.dashboard.globalDisplay == old(cfg.dashboard.globalDisplay)
    ensures cfg.dashboard.layout == old(cfg.dashboard.layout)
    ensures cfg.general == old(cfg.general) && cfg.pricing == old(cfg.pricing)
    ensures cfg.widget == old(cfg.widget) && cfg.advanced == old(cfg.advanced)
    ensures r == (if save.Ok? then Ok(cfg.dashboard.profiles) else Err(save.error))
  {
    cfg.dashboard := cfg.dashboard.(profiles := RemoveNamed(cfg.dashboard.profiles, name, ProfileName));
    if cfg.dashboard.activeProfile == name {
      cfg.dashboard := cfg.dashboard.(activeProfile := "");
    }
    if save.Err? {
      return Err(save.error);
    }
    r := Ok(cfg.dashboard.profiles);
  }

  /** Saving a layout under a name and loading that name gives back the
      saved tiles and display mode */
  lemma SaveThenLoad(ps: seq<LayoutProfile>, name: string, widgets: seq<DashboardWidget>, globalDisplay: string)
    ensures ProfileNamed(Upserted(ps, LayoutProfile(name, widgets, globalDisplay)), name)
      == Some(LayoutProfile(name, widgets, globalDisplay))
  {
    var p := LayoutProfile(name, widgets, globalDisplay);
    var r := Upserted(ps, p);
    match FindProfile(ps, name)
    case Some(i) =>
      FindProfileAt(r, name, i);
    case None =>
      FindProfileAt(r, name, |ps|);
  }
}
