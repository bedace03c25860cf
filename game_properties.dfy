/** The capability gate: the game's version fingerprint, the feature flags
    derived from it, the "not supported" verdict and the text forms. */
module GameProps {
  import opened Wrappers
  import opened Ints
  import opened Decimal

  /** First build that knows the MAXXIVE CLEAR lamp. */
  const MaxxiveBuild: nat := 2025042200
  /** First build treated as knowing ULTIMATE lamps (the game's is one later;
      the source is deliberately lenient). */
  const UltimateBuild: nat := 2025062400
  /** Oldest supported build. */
  const OldestBuild: nat := 2022083000

  datatype GameProperties = GameProperties(
    model: string,
    dest: string,
    spec: string,
    revision: string,
    ext: u64,
    valkyrie: bool,
    maxxiveSupport: bool,
    ultimateSupport: bool)

  /** The derived flags agree with the fingerprint they were computed from. */
  predicate Derived(p: GameProperties) {
    && p.valkyrie == (p.spec == "G" || p.spec == "H")
    && p.maxxiveSupport == (p.ext >= MaxxiveBuild)
    && p.ultimateSupport == (p.ext >= UltimateBuild)
  }

  /** `GameProperties::from_ea3_node` after the five node reads, each of which
      is `None` when the host could not read it. An unparsable build number
      becomes 0. */
  function FromFingerprint(
    model: Option<string>, dest: Option<string>, spec: Option<string>,
    revision: Option<string>, ext: Option<string>): (r: Option<GameProperties>)
    ensures r.Some? <==> model.Some? && dest.Some? && spec.Some? && revision.Some? && ext.Some?
    ensures r.Some? ==> Derived(r.value)
    ensures r.Some? ==>
      r.value.model == model.value && r.value.dest == dest.value &&
      r.value.spec == spec.value && r.value.revision == revision.value
    ensures r.Some? ==> r.value.ext == ParseU64(ext.value).GetOr(0)
  {
    if model.None? || dest.None? || spec.None? || revision.None? || ext.None? then None
    else
      var e := ParseU64(ext.value).GetOr(0);
      Some(GameProperties(
        model.value, dest.value, spec.value, revision.value, e,
        spec.value == "G" || spec.value == "H",
        e >= MaxxiveBuild,
        e >= UltimateBuild))
  }

  /** Ultimate support implies maxxive support for every computed profile. */
  lemma UltimateImpliesMaxxive(p: GameProperties)
    requires Derived(p)
    ensures p.ultimateSupport ==> p.maxxiveSupport
  {
  }

  datatype NotSupportedReason = WrongModel(model: string) | OmnimixDetected | TooOld(ext: u64)

  /** `is_not_supported`: the model is checked first, then the region
      (Omnimix/Plus data), then the build age. */
  function IsNotSupported(p: GameProperties): (r: Option<NotSupportedReason>)
    ensures r == None <==> p.model == "KFC" && p.dest != "O" && p.dest != "X" && p.ext >= OldestBuild
    ensures r == Some(WrongModel(p.model)) <==> p.model != "KFC"
    ensures r == Some(OmnimixDetected) <==> p.model == "KFC" && (p.dest == "O" || p.dest == "X")
    ensures r == Some(TooOld(p.ext)) <==> p.model == "KFC" && p.dest != "O" && p.dest != "X" && p.ext < OldestBuild
  {
    if p.model != "KFC" then Some(WrongModel(p.model))
    else if p.dest == "O" || p.dest == "X" then Some(OmnimixDetected)
    else if p.ext < OldestBuild then Some(TooOld(p.ext))
    else None
  }

  /** A build number that does not parse makes a KFC profile outside the
      Omnimix regions too old, reported with build 0. */
  lemma UnparsableBuildIsTooOld(model: string, dest: string, spec: string, revision: string, ext: string)
    requires ParseU64(ext) == None
    requires model == "KFC" && dest != "O" && dest != "X"
    ensures FromFingerprint(Some(model), Some(dest), Some(spec), Some(revision), Some(ext)).Some?
    ensures IsNotSupported(FromFingerprint(Some(model), Some(dest), Some(spec), Some(revision), Some(ext)).value)
            == Some(TooOld(0))
  {
  }

  const ValkyrieSuffix := " (Valkyrie)"
  const MaxxiveSuffix := " (Maxxive support)"
  const UltimateSuffix := " (Ultimate support)"

  /** The `model:dest:spec:rev:ext` head of the display form. */
  function Header(p: GameProperties): string {
    p.model + ":" + p.dest + ":" + p.spec + ":" + p.revision + ":" + NatToString(p.ext)
  }

  /** The flag suffixes, in the fixed order Valkyrie, Maxxive, Ultimate. */
  function Suffixes(valkyrie: bool, maxxive: bool, ultimate: bool): string {
    (if valkyrie then ValkyrieSuffix else "")
    + (if maxxive then MaxxiveSuffix else "")
    + (if ultimate then UltimateSuffix else "")
  }

  /** `Display for GameProperties`: the header, then one suffix per flag
      that is set. */
  function Display(p: GameProperties): (s: string)
    ensures Header(p) <= s
    ensures |s| == |Header(p)| + (if p.valkyrie then |ValkyrieSuffix| else 0)
                  + (if p.maxxiveSupport then |MaxxiveSuffix| else 0)
                  + (if p.ultimateSupport then |UltimateSuffix| else 0)
  {
    Header(p) + Suffixes(p.valkyrie, p.maxxiveSupport, p.ultimateSupport)
  }

  /** Two profiles with the same header display the same text only when
      their three flags agree. */
  lemma DisplayDeterminesFlags(p: GameProperties, q: GameProperties)
    requires Header(p) == Header(q) && Display(p) == Display(q)
    ensures p.valkyrie == q.valkyrie && p.maxxiveSupport == q.maxxiveSupport
    ensures p.ultimateSupport == q.ultimateSupport
  {
    var n := |Header(p)|;
    assert Display(p)[n..] == Suffixes(p.valkyrie, p.maxxiveSupport, p.ultimateSupport);
    assert Display(q)[n..] == Suffixes(q.valkyrie, q.maxxiveSupport, q.ultimateSupport);
    SuffixesInjective(p.valkyrie, p.maxxiveSupport, p.ultimateSupport,
                      q.valkyrie, q.maxxiveSupport, q.ultimateSupport);
  }

  /** Right after the header, the Valkyrie suffix appears exactly when the
      cabinet is a Valkyrie model. */
  lemma DisplayShowsValkyrie(p: GameProperties)
    ensures ValkyrieSuffix <= Display(p)[|Header(p)|..] <==> p.valkyrie
  {
    var rest := Display(p)[|Header(p)|..];
    assert rest == Suffixes(p.valkyrie, p.maxxiveSupport, p.ultimateSupport);
    if !p.valkyrie && |rest| >= |ValkyrieSuffix| {
      assert rest[2] != ValkyrieSuffix[2];
    }
  }

  /** After the header and the Valkyrie suffix (when present), the Maxxive
      suffix appears exactly when the build supports MAXXIVE CLEAR. */
  lemma DisplayShowsMaxxive(p: GameProperties)
    ensures var start := |Header(p)| + (if p.valkyrie then |ValkyrieSuffix| else 0);
      start <= |Display(p)| && (MaxxiveSuffix <= Display(p)[start..] <==> p.maxxiveSupport)
  {
    var start := |Header(p)| + (if p.valkyrie then |ValkyrieSuffix| else 0);
    var rest := Display(p)[start..];
    assert rest == (if p.maxxiveSupport then MaxxiveSuffix else "") + (if p.ultimateSupport then UltimateSuffix else "");
    if !p.maxxiveSupport && |rest| >= |MaxxiveSuffix| {
      assert rest[2] != MaxxiveSuffix[2];
    }
  }

  predicate EndsWith(s: string, suffix: string) {
    |suffix| <= |s| && s[|s| - |suffix|..] == suffix
  }

  /** The three suffixes determine the three flags: no two combinations of
      flags print the same suffix text. */
  lemma SuffixesInjective(v1: bool, m1: bool, u1: bool, v2: bool, m2: bool, u2: bool)
    requires Suffixes(v1, m1, u1) == Suffixes(v2, m2, u2)
    ensures v1 == v2 && m1 == m2 && u1 == u2
  {
    var s1, s2 := Suffixes(v1, m1, u1), Suffixes(v2, m2, u2);
    assert |s1| == (if v1 then 11 else 0) + (if m1 then 18 else 0) + (if u1 then 19 else 0);
    assert |s2| == (if v2 then 11 else 0) + (if m2 then 18 else 0) + (if u2 then 19 else 0);
  }

  /** The display form ends with the Ultimate suffix exactly when the
      profile reports ultimate support. */
  lemma DisplayShowsUltimate(p: GameProperties)
    ensures EndsWith(Display(p), UltimateSuffix) <==> p.ultimateSupport
  {
    var h := Header(p);
    var digits := NatToString(p.ext);
    assert h == p.model + ":" + p.dest + ":" + p.spec + ":" + p.revision + ":" + digits;
    assert h[|h| - 1] == digits[|digits| - 1];
    var s := Display(p);
    if !p.ultimateSupport {
      // Each possible ending differs from the Ultimate suffix somewhere.
      if p.maxxiveSupport {
        assert s[|s| - 11] == 'v';
      } else if p.valkyrie {
        assert s[|s| - 11] == ' ';
      } else {
        assert s[|s| - 1] != ')';
      }
    }
  }

  /** `Display for NotSupportedReason`. The sixth character tells the
      three verdicts apart. */
  function ReasonMessage(r: NotSupportedReason): (s: string)
    ensures |s| > 5
    ensures s[5] == (match r case WrongModel(_) => 'm' case OmnimixDetected => 'i' case TooOld(_) => 'v')
  {
    match r
    case WrongModel(m) => "Game model '" + m + "' is not related to chicken"
    case OmnimixDetected => "Omnimix/Plus detected"
    case TooOld(e) => "Game version '" + NatToString(e) + "' is too old"
  }

  /** Different verdicts print different messages. */
  lemma ReasonMessageInjective(a: NotSupportedReason, b: NotSupportedReason)
    requires ReasonMessage(a) == ReasonMessage(b)
    ensures a == b
  {
    var s := ReasonMessage(a);
    if a.WrongModel? && b.WrongModel? {
      var n := |"Game model '"|;
      var tail := |"' is not related to chicken"|;
      assert a.model == s[n..|s| - tail] == b.model;
    } else if a.TooOld? && b.TooOld? {
      var n := |"Game version '"|;
      var tail := |"' is too old"|;
      assert NatToString(a.ext) == s[n..|s| - tail] == NatToString(b.ext);
      NatToStringInjective(a.ext, b.ext);
    }
  }
}
