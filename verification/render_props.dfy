/** Properties of the instruction renderers: where each check's lines sit in
    the text, which optional line appears under which condition, how steps are
    numbered, how the text ends, and how ids relate to the catalog. */
module RenderProps {
  import opened Wrappers
  import opened Text
  import opened Render

  /** Some line of `lines` starts with `p`. */
  predicate HasLineStarting(lines: seq<string>, p: string) {
    exists j :: 0 <= j < |lines| && p <= lines[j]
  }

  // ---------------------------------------------------------------------
  // Telling the lines of a check block apart
  // ---------------------------------------------------------------------

  type Sig3 = (char, char, char)

  /** Characters 0, 2 and 4 of a line: enough to tell apart every kind of line
      a check block contains. */
  function Sig(line: string): (r: Sig3) {
    if |line| >= 5 then (line[0], line[2], line[4]) else ('\0', '\0', '\0')
  }

  /** A numbered step line: two spaces, then a digit. */
  predicate StepSig(g: Sig3) {
    g.0 == ' ' && IsDigit(g.1)
  }

  /** Every line of `lines` is of a kind in `kinds`, or is a numbered step. */
  predicate Within(lines: seq<string>, kinds: set<Sig3>) {
    forall j :: 0 <= j < |lines| ==> Sig(lines[j]) in kinds || StepSig(Sig(lines[j]))
  }

  const Blank: Sig3 := ('\0', '\0', '\0')
  const Hash: Sig3 := ('#', '#', '[')
  const TypeKind: Sig3 := ('-', '*', 'T')
  const ValidationKind: Sig3 := ('-', '*', 'V')
  const CommandKind: Sig3 := ('-', '*', 'C')
  const KeyFilesKind: Sig3 := ('-', '*', 'K')
  const LiveTestKind: Sig3 := ('-', '*', 'L')
  const MethodKind: Sig3 := (' ', '-', 'M')
  const UrlKind: Sig3 := (' ', '-', 'U')
  const BodyKind: Sig3 := (' ', '-', 'B')
  const ExpectKind: Sig3 := (' ', '-', 'E')
  const StepsKind: Sig3 := ('-', '*', 'S')

  const AllKinds: set<Sig3> := {Blank, Hash, TypeKind, ValidationKind, CommandKind, KeyFilesKind,
                                LiveTestKind, MethodKind, UrlKind, BodyKind, ExpectKind, StepsKind}

  lemma SigOfExtension(lit: string, x: string)
    requires |lit| >= 5
    ensures Sig(lit + x) == Sig(lit)
  {
  }

  /** A line that starts with `p` has the kind of `p`. */
  lemma SigOfPrefixed(p: string, line: string)
    requires |p| >= 5 && p <= line
    ensures Sig(line) == Sig(p)
  {
    assert line[..|p|] == p;
    assert line[0] == p[0] && line[2] == p[2] && line[4] == p[4];
  }

  lemma WithinAppend(a: seq<string>, b: seq<string>, kinds: set<Sig3>)
    requires Within(a, kinds) && Within(b, kinds)
    ensures Within(a + b, kinds)
  {
    forall j | 0 <= j < |a + b|
      ensures Sig((a + b)[j]) in kinds || StepSig(Sig((a + b)[j]))
    {
      if j < |a| {
        assert (a + b)[j] == a[j];
      } else {
        assert (a + b)[j] == b[j - |a|];
      }
    }
  }

  lemma WithinWeaken(a: seq<string>, small: set<Sig3>, big: set<Sig3>)
    requires Within(a, small) && small <= big
    ensures Within(a, big)
  {
  }

  /** A line of another kind than `p` does not start with `p`. */
  lemma SigDiffers(p: string, line: string)
    requires |p| >= 5 && Sig(line) != Sig(p)
    ensures !(p <= line)
  {
    if p <= line {
      SigOfPrefixed(p, line);
    }
  }

  /** When no line of `pre` or `post` can be of the kind of `p`, a line
      starting with `p` exists exactly when `mid` has one. */
  lemma Isolate(pre: seq<string>, mid: seq<string>, post: seq<string>, p: string, kinds: set<Sig3>)
    requires |p| >= 5 && Sig(p) !in kinds && !StepSig(Sig(p))
    requires Within(pre, kinds) && Within(post, kinds)
    ensures HasLineStarting(pre + mid + post, p) <==> HasLineStarting(mid, p)
  {
    var all := pre + mid + post;
    forall j | 0 <= j < |all| && (j < |pre| || |pre| + |mid| <= j)
      ensures !(p <= all[j])
    {
      if j < |pre| {
        assert all[j] == pre[j];
      } else {
        assert all[j] == post[j - |pre| - |mid|];
      }
      SigDiffers(p, all[j]);
    }
    if HasLineStarting(all, p) {
      var j :| 0 <= j < |all| && p <= all[j];
      assert |pre| <= j < |pre| + |mid|;
      assert all[j] == mid[j - |pre|];
    }
    if HasLineStarting(mid, p) {
      var j :| 0 <= j < |mid| && p <= mid[j];
      assert all[j + |pre|] == mid[j];
    }
  }

  lemma StepLineSig(n: nat, step: string)
    ensures StepSig(Sig(StepLine(n, step)))
  {
    var d := NatToString(n);
    assert StepLine(n, step) == "  " + d + ". " + step;
    assert StepLine(n, step)[2] == d[0];
  }

  lemma FixedKinds(c: CheckSpec)
    ensures Within(FixedLines(c), {Blank, Hash, TypeKind, ValidationKind})
  {
    SigOfExtension("### [", c.id + "] " + c.action);
    assert HeadingLine(c) == "### [" + (c.id + "] " + c.action);
    SigOfExtension("- **Type:** ", c.kind.GetOr("manual"));
    SigOfExtension("- **Validation:** ", c.validation);
  }

  lemma CommandKinds(c: CheckSpec)
    ensures Within(CommandLines(c), {CommandKind})
  {
    if Truthy(c.command) {
      SigOfExtension(CommandPrefix, c.command.value + "`");
      assert CommandPrefix + c.command.value + "`" == CommandPrefix + (c.command.value + "`");
    }
  }

  lemma KeyFilesKinds(v: Variant, c: CheckSpec)
    ensures Within(KeyFilesLines(v, c), {KeyFilesKind})
  {
    if ShowsKeyFiles(v) && |c.keyFiles| > 0 {
      SigOfExtension(KeyFilesPrefix, Join(c.keyFiles, ", "));
    }
  }

  lemma LiveTestHeadKinds(lt: LiveTest)
    ensures Within(LiveTestBlock(lt)[..3], {LiveTestKind, MethodKind, UrlKind})
  {
    SigOfExtension(MethodPrefix, lt.verb.GetOr("GET"));
    SigOfExtension(UrlPrefix, lt.url.GetOr("None") + "`");
    assert UrlPrefix + lt.url.GetOr("None") + "`" == UrlPrefix + (lt.url.GetOr("None") + "`");
  }

  function BodyLines(lt: LiveTest): (r: seq<string>) {
    if lt.body.Some? then [BodyPrefix + lt.body.value + "`"] else []
  }

  function ExpectLines(lt: LiveTest): (r: seq<string>) {
    if lt.expected.Some? then [ExpectPrefix + lt.expected.value] else []
  }

  lemma LiveTestParts(lt: LiveTest)
    ensures LiveTestBlock(lt) == LiveTestBlock(lt)[..3] + BodyLines(lt) + ExpectLines(lt)
    ensures Within(BodyLines(lt), {BodyKind})
    ensures Within(ExpectLines(lt), {ExpectKind})
  {
    if lt.body.Some? {
      SigOfExtension(BodyPrefix, lt.body.value + "`");
      assert BodyPrefix + lt.body.value + "`" == BodyPrefix + (lt.body.value + "`");
    }
    if lt.expected.Some? {
      SigOfExtension(ExpectPrefix, lt.expected.value);
    }
  }

  lemma LiveTestKinds(v: Variant, c: CheckSpec)
    ensures Within(LiveTestLines(v, c), {LiveTestKind, MethodKind, UrlKind, BodyKind, ExpectKind})
  {
    var kinds := {LiveTestKind, MethodKind, UrlKind, BodyKind, ExpectKind};
    if ShowsLiveTest(v) && c.liveTest.Some? {
      var lt := c.liveTest.value;
      LiveTestHeadKinds(lt);
      LiveTestParts(lt);
      WithinWeaken(LiveTestBlock(lt)[..3], {LiveTestKind, MethodKind, UrlKind}, kinds);
      WithinWeaken(BodyLines(lt), {BodyKind}, kinds);
      WithinWeaken(ExpectLines(lt), {ExpectKind}, kinds);
      WithinAppend(LiveTestBlock(lt)[..3], BodyLines(lt), kinds);
      WithinAppend(LiveTestBlock(lt)[..3] + BodyLines(lt), ExpectLines(lt), kinds);
    }
  }

  lemma {:induction false} NumberedStepsKinds(steps: seq<string>)
    ensures Within(NumberedSteps(steps), {})
  {
    if |steps| > 0 {
      NumberedStepsKinds(steps[..|steps| - 1]);
      StepLineSig(|steps|, steps[|steps| - 1]);
      WithinAppend(NumberedSteps(steps[..|steps| - 1]), [StepLine(|steps|, steps[|steps| - 1])], {});
    }
  }

  lemma StepsKinds(v: Variant, c: CheckSpec)
    ensures Within(StepsLines(v, c), {StepsKind})
  {
    if ShowsSteps(v) && |c.steps| > 0 {
      NumberedStepsKinds(c.steps);
      WithinWeaken(NumberedSteps(c.steps), {}, {StepsKind});
      WithinAppend([StepsHeading], NumberedSteps(c.steps), {StepsKind});
    }
  }

  /** All section facts of one block, each weakened to the kinds other than `own`. */
  lemma SectionsAvoid(v: Variant, c: CheckSpec, own: Sig3)
    ensures own != Blank && own != Hash && own != TypeKind && own != ValidationKind ==>
      Within(FixedLines(c), AllKinds - {own})
    ensures own != CommandKind ==> Within(CommandLines(c), AllKinds - {own})
    ensures own != KeyFilesKind ==> Within(KeyFilesLines(v, c), AllKinds - {own})
    ensures own !in {LiveTestKind, MethodKind, UrlKind, BodyKind, ExpectKind} ==>
      Within(LiveTestLines(v, c), AllKinds - {own})
    ensures own != StepsKind ==> Within(StepsLines(v, c), AllKinds - {own})
  {
    var rest := AllKinds - {own};
    FixedKinds(c);
    CommandKinds(c);
    KeyFilesKinds(v, c);
    LiveTestKinds(v, c);
    StepsKinds(v, c);
    if own != Blank && own != Hash && own != TypeKind && own != ValidationKind {
      WithinWeaken(FixedLines(c), {Blank, Hash, TypeKind, ValidationKind}, rest);
    }
    if own != CommandKind {
      WithinWeaken(CommandLines(c), {CommandKind}, rest);
    }
    if own != KeyFilesKind {
      WithinWeaken(KeyFilesLines(v, c), {KeyFilesKind}, rest);
    }
    if own !in {LiveTestKind, MethodKind, UrlKind, BodyKind, ExpectKind} {
      WithinWeaken(LiveTestLines(v, c), {LiveTestKind, MethodKind, UrlKind, BodyKind, ExpectKind}, rest);
    }
    if own != StepsKind {
      WithinWeaken(StepsLines(v, c), {StepsKind}, rest);
    }
  }

  lemma StartsWithItself(p: string, x: string)
    ensures p <= p + x
  {
    assert (p + x)[..|p|] == p;
  }

  // ---------------------------------------------------------------------
  // Which optional line a check gets
  // ---------------------------------------------------------------------

  /** A check shows a Command line exactly when its command is non-empty; all
      three renderers print it. */
  lemma {:induction false} CommandLineIff(v: Variant, c: CheckSpec)
    ensures HasLineStarting(CheckBlock(v, c), CommandPrefix) <==> Truthy(c.command)
  {
    var kinds := AllKinds - {CommandKind};
    SectionsAvoid(v, c, CommandKind);
    var post := KeyFilesLines(v, c) + LiveTestLines(v, c) + StepsLines(v, c);
    WithinAppend(KeyFilesLines(v, c), LiveTestLines(v, c), kinds);
    WithinAppend(KeyFilesLines(v, c) + LiveTestLines(v, c), StepsLines(v, c), kinds);
    assert CheckBlock(v, c) == FixedLines(c) + CommandLines(c) + post;
    Isolate(FixedLines(c), CommandLines(c), post, CommandPrefix, kinds);
    if Truthy(c.command) {
      StartsWithItself(CommandPrefix, c.command.value + "`");
      assert CommandLines(c)[0] == CommandPrefix + (c.command.value + "`");
    }
  }

  /** Key files are shown, comma-joined, exactly when the renderer is the build
      one and the list is non-empty. */
  lemma {:induction false} KeyFilesLineIff(v: Variant, c: CheckSpec)
    ensures HasLineStarting(CheckBlock(v, c), KeyFilesPrefix) <==> (v == Build && |c.keyFiles| > 0)
    ensures v == Build && |c.keyFiles| > 0 ==>
      KeyFilesPrefix + Join(c.keyFiles, ", ") in CheckBlock(v, c)
  {
    var kinds := AllKinds - {KeyFilesKind};
    SectionsAvoid(v, c, KeyFilesKind);
    var pre := FixedLines(c) + CommandLines(c);
    var post := LiveTestLines(v, c) + StepsLines(v, c);
    WithinAppend(FixedLines(c), CommandLines(c), kinds);
    WithinAppend(LiveTestLines(v, c), StepsLines(v, c), kinds);
    assert CheckBlock(v, c) == pre + KeyFilesLines(v, c) + post;
    Isolate(pre, KeyFilesLines(v, c), post, KeyFilesPrefix, kinds);
    if v == Build && |c.keyFiles| > 0 {
      StartsWithItself(KeyFilesPrefix, Join(c.keyFiles, ", "));
      assert CheckBlock(v, c)[|pre|] == KeyFilesPrefix + Join(c.keyFiles, ", ");
    }
  }

  /** A Live Test block is shown exactly when the renderer is the build one and
      the check has a live test. */
  lemma {:induction false} LiveTestIff(v: Variant, c: CheckSpec)
    ensures HasLineStarting(CheckBlock(v, c), LiveTestHeading) <==> (v == Build && c.liveTest.Some?)
  {
    var kinds := AllKinds - {LiveTestKind};
    SectionsAvoid(v, c, StepsKind);
    SectionsAvoid(v, c, LiveTestKind);
    var pre := FixedLines(c) + CommandLines(c) + KeyFilesLines(v, c);
    WithinAppend(FixedLines(c), CommandLines(c), kinds);
    WithinAppend(FixedLines(c) + CommandLines(c), KeyFilesLines(v, c), kinds);
    StepsKinds(v, c);
    WithinWeaken(StepsLines(v, c), {StepsKind}, kinds);
    assert CheckBlock(v, c) == pre + LiveTestLines(v, c) + StepsLines(v, c);
    assert HasLineStarting(LiveTestLines(v, c), LiveTestHeading) <==> (v == Build && c.liveTest.Some?) by {
      if v == Build && c.liveTest.Some? {
        StartsWithItself(LiveTestHeading, "");
        assert LiveTestLines(v, c)[0] == LiveTestHeading + "";
      }
    }
    Isolate(pre, LiveTestLines(v, c), StepsLines(v, c), LiveTestHeading, kinds);
  }

  /** The live test's Body and Expect lines: each is shown exactly when the
      build renderer shows a live test that has that value. */
  lemma {:induction false} BodyExpectIff(v: Variant, c: CheckSpec)
    ensures HasLineStarting(CheckBlock(v, c), BodyPrefix)
        <==> (v == Build && c.liveTest.Some? && c.liveTest.value.body.Some?)
    ensures HasLineStarting(CheckBlock(v, c), ExpectPrefix)
        <==> (v == Build && c.liveTest.Some? && c.liveTest.value.expected.Some?)
  {
    OptionalLiveTestLine(v, c, BodyKind, BodyPrefix);
    OptionalLiveTestLine(v, c, ExpectKind, ExpectPrefix);
  }

  lemma OptionalLiveTestLine(v: Variant, c: CheckSpec, own: Sig3, p: string)
    requires (own, p) == (BodyKind, BodyPrefix) || (own, p) == (ExpectKind, ExpectPrefix)
    ensures HasLineStarting(CheckBlock(v, c), p)
        <==> (v == Build && c.liveTest.Some?
              && (if own == BodyKind then c.liveTest.value.body.Some? else c.liveTest.value.expected.Some?))
  {
    var kinds := AllKinds - {own};
    SectionsAvoid(v, c, own);
    var pre := FixedLines(c) + CommandLines(c) + KeyFilesLines(v, c);
    WithinAppend(FixedLines(c), CommandLines(c), kinds);
    WithinAppend(FixedLines(c) + CommandLines(c), KeyFilesLines(v, c), kinds);
    assert CheckBlock(v, c) == pre + LiveTestLines(v, c) + StepsLines(v, c);
    Isolate(pre, LiveTestLines(v, c), StepsLines(v, c), p, kinds);
    if v == Build && c.liveTest.Some? {
      var lt := c.liveTest.value;
      LiveTestHeadKinds(lt);
      LiveTestParts(lt);
      WithinWeaken(LiveTestBlock(lt)[..3], {LiveTestKind, MethodKind, UrlKind}, kinds);
      if own == BodyKind {
        WithinWeaken(ExpectLines(lt), {ExpectKind}, kinds);
        Isolate(LiveTestBlock(lt)[..3], BodyLines(lt), ExpectLines(lt), p, kinds);
        if lt.body.Some? {
          StartsWithItself(p, lt.body.value + "`");
          assert BodyLines(lt)[0] == p + (lt.body.value + "`");
        }
      } else {
        WithinWeaken(BodyLines(lt), {BodyKind}, kinds);
        WithinAppend(LiveTestBlock(lt)[..3], BodyLines(lt), kinds);
        Isolate(LiveTestBlock(lt)[..3] + BodyLines(lt), ExpectLines(lt), [], p, kinds);
        assert LiveTestBlock(lt)[..3] + BodyLines(lt) + ExpectLines(lt) + [] == LiveTestBlock(lt);
        if lt.expected.Some? {
          StartsWithItself(p, lt.expected.value);
        }
      }
    }
  }

  /** A Steps list is shown exactly when the renderer is the build or test one
      and the check has steps. */
  lemma {:induction false} StepsIff(v: Variant, c: CheckSpec)
    ensures HasLineStarting(CheckBlock(v, c), StepsHeading) <==> (v != Setup && |c.steps| > 0)
  {
    var kinds := AllKinds - {StepsKind};
    SectionsAvoid(v, c, StepsKind);
    var pre := FixedLines(c) + CommandLines(c) + KeyFilesLines(v, c) + LiveTestLines(v, c);
    WithinAppend(FixedLines(c), CommandLines(c), kinds);
    WithinAppend(FixedLines(c) + CommandLines(c), KeyFilesLines(v, c), kinds);
    WithinAppend(FixedLines(c) + CommandLines(c) + KeyFilesLines(v, c), LiveTestLines(v, c), kinds);
    assert CheckBlock(v, c) == pre + StepsLines(v, c) + [];
    Isolate(pre, StepsLines(v, c), [], StepsHeading, kinds);
    if v != Setup && |c.steps| > 0 {
      StartsWithItself(StepsHeading, "");
      assert StepsLines(v, c)[0] == StepsHeading + "";
    }
  }

  /** A live test shows its method (default GET) and always a URL line, the
      text `None` standing in for a missing URL. */
  lemma LiveTestShape(lt: LiveTest)
    ensures |LiveTestBlock(lt)| == 3 + (if lt.body.Some? then 1 else 0) + (if lt.expected.Some? then 1 else 0)
    ensures LiveTestBlock(lt)[1] == MethodPrefix + (if lt.verb.Some? then lt.verb.value else "GET")
    ensures LiveTestBlock(lt)[2] == UrlPrefix + (if lt.url.Some? then lt.url.value else "None") + "`"
    ensures LiveTestBlock(lt)[0] == LiveTestHeading
    ensures lt.body.Some? ==> LiveTestBlock(lt)[3] == BodyPrefix + lt.body.value + "`"
    ensures lt.expected.Some? ==> LiveTestBlock(lt)[|LiveTestBlock(lt)| - 1] == ExpectPrefix + lt.expected.value
  {
  }

  /** Steps are numbered 1, 2, ... in order, one line each. */
  lemma {:induction false} StepsNumbered(steps: seq<string>)
    ensures |NumberedSteps(steps)| == |steps|
    ensures forall i :: 0 <= i < |steps| ==>
      NumberedSteps(steps)[i] == "  " + NatToString(i + 1) + ". " + steps[i]
  {
    if |steps| > 0 {
      var init := steps[..|steps| - 1];
      StepsNumbered(init);
      forall i | 0 <= i < |steps|
        ensures NumberedSteps(steps)[i] == "  " + NatToString(i + 1) + ". " + steps[i]
      {
        if i < |init| {
          assert NumberedSteps(steps)[i] == NumberedSteps(init)[i];
          assert init[i] == steps[i];
        }
      }
    }
  }

  /** The lines of a check block come in a fixed order: the four fixed
      lines, then Command, Key Files, the Live Test block and the Steps
      list, each present only under its condition. */
  lemma {:induction false} BlockLayout(v: Variant, c: CheckSpec)
    ensures
      var block := CheckBlock(v, c);
      var nc := if Truthy(c.command) then 1 else 0;
      var nk := if v == Build && |c.keyFiles| > 0 then 1 else 0;
      var nl := if v == Build && c.liveTest.Some? then |LiveTestBlock(c.liveTest.value)| else 0;
      var ns := if v != Setup && |c.steps| > 0 then 1 + |c.steps| else 0;
      && |block| == 4 + nc + nk + nl + ns
      && (nc == 1 ==> block[4] == CommandPrefix + c.command.value + "`")
      && (nk == 1 ==> block[4 + nc] == KeyFilesPrefix + Join(c.keyFiles, ", "))
      && (nl > 0 ==> block[4 + nc + nk..4 + nc + nk + nl] == LiveTestBlock(c.liveTest.value))
      && (ns > 0 ==> block[4 + nc + nk + nl..] == [StepsHeading] + NumberedSteps(c.steps))
  {
    var f, cl, kl, ll, sl := FixedLines(c), CommandLines(c), KeyFilesLines(v, c), LiveTestLines(v, c), StepsLines(v, c);
    assert |f| == 4;
    Concat5(f, cl, kl, ll, sl);
  }

  /** The Steps list closes the block, its entries numbered from 1 in the
      order given. */
  lemma BlockEndsWithSteps(v: Variant, c: CheckSpec)
    requires v != Setup && |c.steps| > 0
    ensures
      var block := CheckBlock(v, c);
      var n := |block| - |c.steps|;
      && block[n - 1] == StepsHeading
      && forall i :: 0 <= i < |c.steps| ==>
           block[n + i] == "  " + NatToString(i + 1) + ". " + c.steps[i]
  {
    var head := FixedLines(c) + CommandLines(c) + KeyFilesLines(v, c) + LiveTestLines(v, c);
    var sl := StepsLines(v, c);
    assert CheckBlock(v, c) == head + sl;
    assert sl[1..] == NumberedSteps(c.steps);
    StepsNumbered(c.steps);
    EndsWith(head, sl[..1], sl[1..]);
    assert sl[..1] + sl[1..] == sl;
  }

  /** Where the last part of a concatenation sits. */
  lemma EndsWith<T>(h: seq<T>, m: seq<T>, e: seq<T>)
    ensures forall i :: 0 <= i < |e| ==> (h + m + e)[|h| + |m| + i] == e[i]
  {
  }

  /** Index and slice arithmetic for a five-part concatenation. */
  lemma Concat5<T>(a: seq<T>, b: seq<T>, c: seq<T>, d: seq<T>, e: seq<T>)
    ensures |a + b + c + d + e| == |a| + |b| + |c| + |d| + |e|
    ensures |b| > 0 ==> (a + b + c + d + e)[|a|] == b[0]
    ensures |c| > 0 ==> (a + b + c + d + e)[|a| + |b|] == c[0]
    ensures (a + b + c + d + e)[|a| + |b| + |c|..|a| + |b| + |c| + |d|] == d
    ensures (a + b + c + d + e)[|a| + |b| + |c| + |d|..] == e
  {
    var s := a + b + c + d + e;
    assert s == (a + b + c) + d + e;
    SliceMiddle(a + b + c, d, e);
    assert s == (a + b + c + d) + e;
  }

  // ---------------------------------------------------------------------
  // The whole text
  // ---------------------------------------------------------------------

  /** The text opens with the title, the id and the estimate (default
      `Unknown`), then the description, then the Checks heading. */
  lemma HeaderShape(v: Variant, id: string, d: TaskDef)
    ensures
      var lines := InstructionLines(v, id, d);
      && |lines| >= 9
      && lines[0] == "# " + d.title && lines[1] == ""
      && lines[2] == "**Task ID:** " + id
      && lines[3] == "**Estimated Time:** " + (if d.estimatedTime.Some? then d.estimatedTime.value else "Unknown")
      && lines[4] == "" && lines[5] == "## Description" && lines[6] == d.description
      && lines[7] == "" && lines[8] == "## Checks"
  {
  }

  lemma {:induction false} ChecksLinesAppend(v: Variant, a: seq<CheckSpec>, b: seq<CheckSpec>)
    ensures ChecksLines(v, a + b) == ChecksLines(v, a) + ChecksLines(v, b)
    decreases |b|
  {
    if |b| == 0 {
      assert a + b == a;
    } else {
      var b' := b[..|b| - 1];
      var last := b[|b| - 1];
      assert (a + b)[..|a + b| - 1] == a + b';
      assert (a + b)[|a + b| - 1] == last;
      assert ChecksLines(v, a + b) == ChecksLines(v, a + b') + CheckBlock(v, last);
      assert ChecksLines(v, b) == ChecksLines(v, b') + CheckBlock(v, last);
      ChecksLinesAppend(v, a, b');
      Render.AppendAssoc(ChecksLines(v, a), ChecksLines(v, b'), CheckBlock(v, last));
    }
  }

  /** Where check `k` is printed: its block is the slice that begins right
      after the blocks of the checks before it, and the next check's block
      begins right after it, so the checks appear once each, in declared
      order. */
  lemma {:induction false} CheckBlockAt(v: Variant, id: string, d: TaskDef, k: nat)
    requires k < |d.checks|
    ensures
      var lines := InstructionLines(v, id, d);
      var start := 9 + |ChecksLines(v, d.checks[..k])|;
      && start + |CheckBlock(v, d.checks[k])| <= |lines|
      && lines[start..start + |CheckBlock(v, d.checks[k])|] == CheckBlock(v, d.checks[k])
      && 9 + |ChecksLines(v, d.checks[..k + 1])| == start + |CheckBlock(v, d.checks[k])|
  {
    var cs := d.checks;
    var c := cs[k];
    var before := ChecksLines(v, cs[..k]);
    var after := ChecksLines(v, cs[k + 1..]);
    assert cs == cs[..k] + [c] + cs[k + 1..];
    ChecksLinesAppend(v, cs[..k] + [c], cs[k + 1..]);
    ChecksLinesAppend(v, cs[..k], [c]);
    assert ChecksLines(v, [c]) == CheckBlock(v, c) by {
      assert [c][..0] == [];
    }
    assert cs[..k + 1] == cs[..k] + [c];
    assert ChecksLines(v, cs) == before + CheckBlock(v, c) + after;
    var pre := HeaderLines(id, d) + before;
    var post := after + DependencyLines(d.dependencies) + FailureLines(v, d);
    Regroup(HeaderLines(id, d), before, CheckBlock(v, c), after, DependencyLines(d.dependencies), FailureLines(v, d));
    SliceMiddle(pre, CheckBlock(v, c), post);
  }

  lemma Regroup<T>(h: seq<T>, x: seq<T>, b: seq<T>, y: seq<T>, e: seq<T>, f: seq<T>)
    ensures h + (x + b + y) + e + f == (h + x) + b + (y + e + f)
  {
  }

  /** Every check's block opens with a blank line, its `### [id] action`
      heading, its type (default `manual`) and its validation, whatever the
      renderer. */
  lemma BlockOpening(v: Variant, c: CheckSpec)
    ensures |CheckBlock(v, c)| >= 4
    ensures CheckBlock(v, c)[0] == "" && CheckBlock(v, c)[1] == "### [" + c.id + "] " + c.action
    ensures CheckBlock(v, c)[2] == "- **Type:** " + (if c.kind.Some? then c.kind.value else "manual")
    ensures CheckBlock(v, c)[3] == "- **Validation:** " + c.validation
  {
    var rest := CommandLines(c) + KeyFilesLines(v, c) + LiveTestLines(v, c) + StepsLines(v, c);
    assert CheckBlock(v, c) == FixedLines(c) + rest;
  }

  lemma SliceMiddle<T>(a: seq<T>, b: seq<T>, c: seq<T>)
    ensures (a + b + c)[|a|..|a| + |b|] == b
  {
  }

  /** After the checks come the Dependencies section (iff there are
      dependencies, ids joined by ", ") and then, for the setup renderer only,
      the On Failure section (iff `on_failure` is non-empty), which is then the
      last line. The build and test renderers never print On Failure. */
  lemma TailShape(v: Variant, id: string, d: TaskDef)
    ensures
      var lines := InstructionLines(v, id, d);
      var n := 9 + |ChecksLines(v, d.checks)|;
      var showsFailure := v == Setup && Truthy(d.onFailure);
      && |lines| == n + (if |d.dependencies| > 0 then 3 else 0) + (if showsFailure then 3 else 0)
      && (|d.dependencies| > 0 ==>
            lines[n] == "" && lines[n + 1] == "## Dependencies"
            && lines[n + 2] == "Complete these first: " + Join(d.dependencies, ", "))
      && (showsFailure ==>
            lines[|lines| - 3] == "" && lines[|lines| - 2] == "## On Failure"
            && lines[|lines| - 1] == d.onFailure.value)
      && (v != Setup ==> |lines| == n + (if |d.dependencies| > 0 then 3 else 0))
  {
  }

  // ---------------------------------------------------------------------
  // The catalog
  // ---------------------------------------------------------------------

  /** `get_task_ids` lists exactly the ids `get_instructions` knows, in
      declaration order; with distinct keys each id finds its own entry. */
  lemma TaskIdsMatchLookup(c: Catalog)
    ensures |TaskIds(c)| == |c|
    ensures forall id :: id in TaskIds(c) <==> Lookup(c, id).Some?
    ensures forall k :: 0 <= k < |c| ==> TaskIds(c)[k] == c[k].0 && Lookup(c, c[k].0) == Some(c[k].1)
  {
    forall id
      ensures id in TaskIds(c) <==> Lookup(c, id).Some?
    {
      if Lookup(c, id).Some? {
        var k :| 0 <= k < |c| && c[k] == (id, Lookup(c, id).value);
        assert TaskIds(c)[k] == id;
      }
    }
  }

  /** For a known id whose fields hold no newline, the returned text splits
      back into exactly the lines laid out above. */
  lemma InstructionsText(v: Variant, c: Catalog, id: string, d: TaskDef)
    requires Lookup(c, id) == Some(d)
    requires FreeOf(InstructionLines(v, id, d), '\n')
    ensures Split(GetInstructions(v, c, id), '\n') == InstructionLines(v, id, d)
    ensures |Split(GetInstructions(v, c, id), '\n')| >= 9
  {
  }
}
