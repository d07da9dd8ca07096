/** Unix-socket forward rules, "guest-path:host-path" (pkg/librevm/unix_forward.go) and the
    merge of the built-in SSH-agent rule (pkg/librevm/vm.go). */
module ForwardRules {
  import opened Text
  import opened Wrappers

  type Rules = map<string, string>

  /** What one spec says on its own. */
  datatype Line = Blank | Malformed | Rule(guest: string, host: string)

  predicate IsAbs(path: string) { HasPrefix(path, "/") }

  const UNIX_SCHEME := "unix://"

  function TrimUnixScheme(s: string): string {
    if HasPrefix(s, UNIX_SCHEME) then s[|UNIX_SCHEME|..] else s
  }

  function ParseLine(raw: string): Line {
    var spec := Trim(raw);
    if spec == "" then Blank
    else if ':' !in spec then Malformed
    else
      var guest := Trim(Before(spec, ':'));
      var host := TrimUnixScheme(Trim(After(spec, ':')));
      if guest == "" || host == "" || !IsAbs(guest) || !IsAbs(host) then Malformed else Rule(guest, host)
  }

  function StepLine(rules: Option<Rules>, line: Line): Option<Rules> {
    match rules
    case None => None
    case Some(m) =>
      match line
      case Blank => rules
      case Malformed => None
      case Rule(g, h) => if g in m then None else Some(m[g := h])
  }

  /** One iteration of the parsing loop; an error is final. */
  function Step(rules: Option<Rules>, raw: string): Option<Rules> { StepLine(rules, ParseLine(raw)) }

  function Fold(rules: Option<Rules>, specs: seq<string>): Option<Rules>
    decreases specs
  {
    if specs == [] then rules else Fold(Step(rules, specs[0]), specs[1..])
  }

  function Parse(specs: seq<string>): Option<Rules> { Fold(Some(map[]), specs) }

  lemma {:induction false} FoldConcat(rules: Option<Rules>, xs: seq<string>, ys: seq<string>)
    ensures Fold(rules, xs + ys) == Fold(Fold(rules, xs), ys)
    decreases xs
  {
    if xs == [] {
      assert xs + ys == ys;
    } else {
      assert (xs + ys)[1..] == xs[1..] + ys;
      FoldConcat(Step(rules, xs[0]), xs[1..], ys);
    }
  }

  lemma {:induction false} ErrorIsFinal(specs: seq<string>)
    ensures Fold(None, specs) == None
  {
    if specs != [] {
      ErrorIsFinal(specs[1..]);
    }
  }

  method ParseForwardUnixRules(specs: seq<string>) returns (r: Option<Rules>)
    ensures r == Parse(specs)
  {
    var rules: Rules := map[];
    var i := 0;
    while i < |specs|
      invariant 0 <= i <= |specs|
      invariant Fold(Some(rules), specs[i..]) == Parse(specs)
    {
      match ParseLine(specs[i]) {
        case Blank =>
        case Malformed =>
          ErrorIsFinal(specs[i + 1..]);
          return None;
        case Rule(g, h) =>
          if g in rules {
            ErrorIsFinal(specs[i + 1..]);
            return None;
          }
          rules := rules[g := h];
      }
      i := i + 1;
    }
    return Some(rules);
  }

  // --- What a list of specs means --------------------------------------------

  lemma ParseAppend(specs: seq<string>, raw: string)
    ensures Parse(specs + [raw]) == Step(Parse(specs), raw)
  {
    FoldConcat(Some(map[]), specs, [raw]);
  }

  ghost predicate NoneMalformed(specs: seq<string>) {
    forall i :: 0 <= i < |specs| ==> !ParseLine(specs[i]).Malformed?
  }

  ghost predicate GuestsDistinct(specs: seq<string>) {
    forall i, j :: 0 <= i < j < |specs| && ParseLine(specs[i]).Rule? && ParseLine(specs[j]).Rule? ==>
                     ParseLine(specs[i]).guest != ParseLine(specs[j]).guest
  }

  ghost predicate Says(specs: seq<string>, guest: string, host: string) {
    exists i :: 0 <= i < |specs| && ParseLine(specs[i]) == Rule(guest, host)
  }

  lemma MalformedAppend(init: seq<string>, last: string)
    ensures NoneMalformed(init + [last]) <==> NoneMalformed(init) && !ParseLine(last).Malformed?
  {
    var specs := init + [last];
    assert specs[|init|] == last && forall i :: 0 <= i < |init| ==> specs[i] == init[i];
  }

  lemma SaysAppend(init: seq<string>, last: string, g: string, h: string)
    ensures Says(init + [last], g, h) <==> Says(init, g, h) || ParseLine(last) == Rule(g, h)
  {
    var specs := init + [last];
    if Says(init, g, h) {
      var i :| 0 <= i < |init| && ParseLine(init[i]) == Rule(g, h);
      assert ParseLine(specs[i]) == Rule(g, h);
    }
    assert specs[|init|] == last;
  }

  /** No line of the list maps this guest path. */
  ghost predicate Unmapped(specs: seq<string>, guest: string) {
    forall i :: 0 <= i < |specs| && ParseLine(specs[i]).Rule? ==> ParseLine(specs[i]).guest != guest
  }

  lemma DistinctAppend(init: seq<string>, last: string)
    ensures GuestsDistinct(init + [last]) <==>
      GuestsDistinct(init) && (ParseLine(last).Rule? ==> Unmapped(init, ParseLine(last).guest))
  {
    var specs := init + [last];
    assert specs[|init|] == last && forall i :: 0 <= i < |init| ==> specs[i] == init[i];
    if GuestsDistinct(specs) {
      forall i, j | 0 <= i < j < |init| && ParseLine(init[i]).Rule? && ParseLine(init[j]).Rule?
        ensures ParseLine(init[i]).guest != ParseLine(init[j]).guest
      {
        assert specs[i] == init[i] && specs[j] == init[j];
      }
    }
  }

  lemma UnmappedSays(specs: seq<string>, guest: string)
    ensures Unmapped(specs, guest) <==> forall h :: !Says(specs, guest, h)
  {
    if !Unmapped(specs, guest) {
      var i :| 0 <= i < |specs| && ParseLine(specs[i]).Rule? && ParseLine(specs[i]).guest == guest;
      assert Says(specs, guest, ParseLine(specs[i]).host);
    }
  }

  /** Parsing succeeds exactly when every line is well formed and no guest path comes twice,
      and then holds exactly the rules that the lines say. */
  lemma {:induction false} ParseMeaning(specs: seq<string>)
    ensures Parse(specs).Some? <==> NoneMalformed(specs) && GuestsDistinct(specs)
    ensures Parse(specs).Some? ==>
      forall g, h :: g in Parse(specs).value && Parse(specs).value[g] == h <==> Says(specs, g, h)
  {
    if specs != [] {
      var init, last := specs[..|specs| - 1], specs[|specs| - 1];
      assert specs == init + [last];
      ParseMeaning(init);
      ParseAppend(init, last);
      forall g, h ensures Says(specs, g, h) <==> Says(init, g, h) || ParseLine(last) == Rule(g, h) {
        SaysAppend(init, last, g, h);
      }
      MalformedAppend(init, last);
      DistinctAppend(init, last);
      if ParseLine(last).Rule? {
        UnmappedSays(init, ParseLine(last).guest);
      }
      if Parse(init).Some? && ParseLine(last).Rule? {
        var m, g := Parse(init).value, ParseLine(last).guest;
        assert g in m ==> Says(init, g, m[g]);
        assert g !in m ==> forall h :: !Says(init, g, h);
      }
    }
  }

  // --- Order does not matter -------------------------------------------------

  lemma LinesCommute(rules: Option<Rules>, p: Line, q: Line)
    ensures StepLine(StepLine(rules, p), q) == StepLine(StepLine(rules, q), p)
  {
    if rules.Some? && p.Rule? && q.Rule? && p.guest != q.guest {
      var m := rules.value;
      assert m[p.guest := p.host][q.guest := q.host] == m[q.guest := q.host][p.guest := p.host];
    }
  }

  lemma {:induction false} StepFirst(rules: Option<Rules>, xs: seq<string>, a: string)
    ensures Fold(Step(rules, a), xs) == Step(Fold(rules, xs), a)
    decreases xs
  {
    if xs != [] {
      LinesCommute(rules, ParseLine(a), ParseLine(xs[0]));
      StepFirst(Step(rules, xs[0]), xs[1..], a);
    }
  }

  /** Any spec may be read first. */
  lemma PullForward(rules: Option<Rules>, ys: seq<string>, k: nat)
    requires k < |ys|
    ensures Fold(rules, ys) == Fold(Step(rules, ys[k]), ys[..k] + ys[k + 1..])
  {
    assert ys == ys[..k] + ys[k..];
    FoldConcat(rules, ys[..k], ys[k..]);
    StepFirst(rules, ys[..k], ys[k]);
    FoldConcat(Step(rules, ys[k]), ys[..k], ys[k + 1..]);
  }

  lemma WithoutOne(ys: seq<string>, k: nat)
    requires k < |ys|
    ensures multiset(ys[..k] + ys[k + 1..]) == multiset(ys) - multiset{ys[k]}
  {
    assert ys == ys[..k] + ([ys[k]] + ys[k + 1..]);
    assert multiset(ys) == multiset(ys[..k]) + (multiset{ys[k]} + multiset(ys[k + 1..]));
  }

  lemma WithoutFirst(xs: seq<string>)
    requires xs != []
    ensures multiset(xs[1..]) == multiset(xs) - multiset{xs[0]}
  {
    var first, rest := [xs[0]], xs[1..];
    assert xs == first + rest;
    assert multiset(first) == multiset{xs[0]};
  }

  lemma IndexIn(ys: seq<string>, y: string, all: multiset<string>) returns (k: nat)
    requires multiset(ys) == all && y in all
    ensures k < |ys| && ys[k] == y
  {
    k :| 0 <= k < |ys| && ys[k] == y;
  }

  lemma FindFirst(xs: seq<string>, ys: seq<string>) returns (k: nat)
    requires xs != [] && multiset(xs) == multiset(ys)
    ensures k < |ys| && ys[k] == xs[0]
    ensures multiset(xs[1..]) == multiset(ys[..k] + ys[k + 1..])
  {
    k := IndexIn(ys, xs[0], multiset(xs));
    WithoutOne(ys, k);
    WithoutFirst(xs);
  }

  lemma {:induction false} FoldPermutation(rules: Option<Rules>, xs: seq<string>, ys: seq<string>)
    requires multiset(xs) == multiset(ys)
    ensures Fold(rules, xs) == Fold(rules, ys)
    decreases xs
  {
    if xs == [] {
      assert |multiset(ys)| == 0;
    } else {
      var k := FindFirst(xs, ys);
      PullForward(rules, ys, k);
      FoldPermutation(Step(rules, xs[0]), xs[1..], ys[..k] + ys[k + 1..]);
    }
  }

  /** Any reordering of the specs succeeds or fails alike, and gives the same rules. */
  lemma OrderIsIrrelevant(specs: seq<string>, shuffled: seq<string>)
    requires multiset(specs) == multiset(shuffled)
    ensures Parse(specs) == Parse(shuffled)
  {
    FoldPermutation(Some(map[]), specs, shuffled);
  }

  // --- The automatic rule ----------------------------------------------------

  datatype Merged = Merged(specs: seq<string>, shouldStart: bool, existing: string)

  function AutoRule(guest: string, host: string): string { guest + ":" + host }

  function Merge(specs: seq<string>, guest: string, host: string): Option<Merged> {
    match Parse(specs)
    case None => None
    case Some(rules) =>
      if guest in rules then Some(Merged(specs, rules[guest] == host, rules[guest]))
      else Some(Merged(specs + [AutoRule(guest, host)], true, ""))
  }

  method MergeAutoForwardUnixRule(specs: seq<string>, guest: string, host: string) returns (r: Option<Merged>)
    ensures r == Merge(specs, guest, host)
  {
    var parsed := ParseForwardUnixRules(specs);
    if parsed.None? {
      return None;
    }
    var rules := parsed.value;
    if guest in rules {
      if rules[guest] == host {
        return Some(Merged(specs, true, rules[guest]));
      }
      return Some(Merged(specs, false, rules[guest]));
    }
    return Some(Merged(specs + [AutoRule(guest, host)], true, ""));
  }

  /** Paths that survive being written into a spec and read back. */
  predicate WellFormed(guest: string, host: string) {
    IsAbs(guest) && Trimmed(guest) && ':' !in guest && IsAbs(host) && Trimmed(host)
  }

  /** A spec written from trimmed parts is taken apart again at its first colon. */
  lemma PartsReadBack(guest: string, right: string)
    requires IsAbs(guest) && Trimmed(guest) && ':' !in guest && right != "" && Trimmed(right)
    ensures var raw := AutoRule(guest, right);
            && Trim(raw) == raw && raw != "" && ':' in raw
            && Trim(Before(raw, ':')) == guest && Trim(After(raw, ':')) == right
  {
    var raw := AutoRule(guest, right);
    assert raw == guest + [':'] + right && raw[|guest|] == ':';
    assert raw[0] == guest[0] && raw[|raw| - 1] == right[|right| - 1];
    TrimTrims(raw);
    TrimTrims(guest);
    TrimTrims(right);
    CutJoin(guest, ':', right);
  }

  lemma ReadBackNeedsWellFormed(guest: string, host: string)
    requires ParseLine(AutoRule(guest, host)) == Rule(guest, host)
    ensures WellFormed(guest, host)
  {
    // The reading loses no character, so nothing was trimmed and no scheme was dropped.
    var raw := AutoRule(guest, host);
    var spec := Trim(raw);
    var left, right := Before(spec, ':'), After(spec, ':');
    assert |left| + 1 + |right| == |spec|;
    TrimShrinks(raw);
    TrimShrinks(left);
    TrimShrinks(right);
    TrimTrims(left);
    TrimTrims(right);
    assert left == guest && right == host;
  }

  /** The automatic spec reads back as the intended rule exactly for well-formed paths. */
  lemma AutoRuleReadsBack(guest: string, host: string)
    ensures ParseLine(AutoRule(guest, host)) == Rule(guest, host) <==> WellFormed(guest, host)
  {
    if WellFormed(guest, host) {
      PartsReadBack(guest, host);
      assert host[0] == '/' && UNIX_SCHEME[0] == 'u';
    }
    if ParseLine(AutoRule(guest, host)) == Rule(guest, host) {
      ReadBackNeedsWellFormed(guest, host);
    }
  }

  /** What the merge adds: nothing when the user already mapped the guest path, else just the rule. */
  lemma MergeAddsOneRule(specs: seq<string>, guest: string, host: string)
    requires Parse(specs).Some?
    ensures Merge(specs, guest, host).Some?
    ensures guest in Parse(specs).value ==> Parse(Merge(specs, guest, host).value.specs) == Parse(specs)
    ensures guest !in Parse(specs).value ==>
      (Parse(Merge(specs, guest, host).value.specs) == Some(Parse(specs).value[guest := host]) <==> WellFormed(guest, host))
  {
    ParseAppend(specs, AutoRule(guest, host));
    AutoRuleReadsBack(guest, host);
    var rules := Parse(specs).value;
    if guest !in rules {
      match ParseLine(AutoRule(guest, host))
      case Rule(g, h) =>
        if g !in rules && rules[g := h] == rules[guest := host] {
          assert g in rules[guest := host] && rules[g := h][g] == h;
        }
      case _ =>
        assert guest in rules[guest := host];
    }
  }

  /** Merging twice gives the specs of merging once, and starts the built-in agent both times or neither. */
  ghost predicate SettlesAtOnce(specs: seq<string>, guest: string, host: string)
    requires Parse(specs).Some?
  {
    var once := Merge(specs, guest, host).value;
    var twice := Merge(once.specs, guest, host);
    twice.Some? && twice.value.specs == once.specs && twice.value.shouldStart == once.shouldStart
  }

  /** Merging is idempotent exactly if the user already mapped the guest path or the paths are well formed. */
  lemma MergeIsIdempotentIff(specs: seq<string>, guest: string, host: string)
    requires Parse(specs).Some?
    ensures SettlesAtOnce(specs, guest, host) <==> guest in Parse(specs).value || WellFormed(guest, host)
  {
    var rules, auto := Parse(specs).value, AutoRule(guest, host);
    MergeAddsOneRule(specs, guest, host);
    if guest !in rules && !WellFormed(guest, host) {
      ParseAppend(specs, auto);
      AutoRuleReadsBack(guest, host);
      assert |specs + [auto] + [auto]| > |specs + [auto]|;
    }
  }

  lemma SchemeTrims(host: string)
    requires IsAbs(host) && Trimmed(host)
    ensures var full := UNIX_SCHEME + host; full != "" && Trimmed(full) && TrimUnixScheme(full) == host
  {
    var full := UNIX_SCHEME + host;
    assert full[0] == 'u' && full[|full| - 1] == host[|host| - 1];
    assert full[..|UNIX_SCHEME|] == UNIX_SCHEME && full[|UNIX_SCHEME|..] == host;
  }

  lemma SchemeIsDropped(guest: string, host: string)
    requires WellFormed(guest, host)
    ensures ParseLine(AutoRule(guest, UNIX_SCHEME + host)) == Rule(guest, host)
  {
    SchemeTrims(host);
    PartsReadBack(guest, UNIX_SCHEME + host);
  }

  /** A failing family: a host path that carries its scheme is read back without it, so that the second merge takes
      the rule for the user's own and does not start the agent. */
  lemma SchemeBreaksMerge(specs: seq<string>, guest: string, host: string)
    requires Parse(specs).Some? && guest !in Parse(specs).value && WellFormed(guest, host)
    ensures var full := UNIX_SCHEME + host;
            var once := Merge(specs, guest, full).value;
            && once.shouldStart
            && Merge(once.specs, guest, full) == Some(Merged(once.specs, false, host))
  {
    SchemeIsDropped(guest, host);
    ParseAppend(specs, AutoRule(guest, UNIX_SCHEME + host));
    assert (UNIX_SCHEME + host)[0] == 'u';
  }

  // --- More about single rules ------------------------------------------------------

  lemma SchemeAbsent(host: string)
    requires IsAbs(host)
    ensures TrimUnixScheme(host) == host
  {
    assert host[0] == '/' && UNIX_SCHEME[0] == 'u';
  }

  /** Blanks around a spec and around its paths do not matter. */
  lemma BlanksIgnored(guest: string, host: string, a: string, b: string, c: string, d: string)
    requires WellFormed(guest, host) && AllBlank(a) && AllBlank(b) && AllBlank(c) && AllBlank(d)
    ensures ParseLine(a + ((guest + b) + [':'] + (c + host)) + d) == Rule(guest, host)
  {
    PaddedCut(guest, b, ':', c, host);
    TrimPads(a, (guest + b) + [':'] + (c + host), d);
    SchemeAbsent(host);
  }

  /** When the built-in agent is started: if the user has not mapped the guest path, or has mapped it to the agent's
      own socket; a path mapped elsewhere is reported and left alone. */
  lemma MergeStarts(specs: seq<string>, guest: string, host: string)
    requires Parse(specs).Some?
    ensures var rules, merged := Parse(specs).value, Merge(specs, guest, host).value;
            && (guest !in rules ==> merged.shouldStart && merged.existing == "")
            && (guest in rules && rules[guest] == host ==> merged.shouldStart && merged.specs == specs)
            && (guest in rules && rules[guest] != host ==>
                  !merged.shouldStart && merged.existing == rules[guest] && merged.specs == specs)
  {
  }

  /** What a spec of two trimmed parts says: a rule if both are absolute paths, and otherwise nothing valid. */
  lemma LineMeans(guest: string, right: string)
    requires Trimmed(guest) && guest != "" && ':' !in guest && Trimmed(right)
    ensures ParseLine(guest + [':'] + right) ==
      if IsAbs(guest) && IsAbs(TrimUnixScheme(right)) then Rule(guest, TrimUnixScheme(right)) else Malformed
  {
    var t := (guest + "") + [':'] + ("" + right);
    assert t == guest + [':'] + right;
    PaddedCut(guest, "", ':', "", right);
    TrimTrims(t);
  }

  /** A blank spec says nothing, and one without a colon is malformed. */
  lemma LineWithoutColon(a: string, text: string, b: string)
    requires AllBlank(a) && AllBlank(b) && Trimmed(text) && ':' !in text
    ensures ParseLine(a + text + b) == if text == "" then Blank else Malformed
  {
    TrimPads(a, text, b);
  }
}
