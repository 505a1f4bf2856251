/** Merging preserved boot loader variables into the default environment file. Default lines are
    deleted one by one by an index that was looked up once, before the first deletion. */
module EnvMerge {
  import opened Common

  /** line.split('=')[0]. */
  function KeyOf(line: string): string {
    if line == "" || line[0] == '=' then "" else [line[0]] + KeyOf(line[1..])
  }

  function Keys(lines: seq<string>): (ks: seq<string>)
    ensures |ks| == |lines|
  {
    seq(|lines|, i requires 0 <= i < |lines| => KeyOf(lines[i]))
  }

  predicate Distinct<T(==)>(s: seq<T>) {
    forall i, j :: 0 <= i < j < |s| ==> s[i] != s[j]
  }

  /** list.index. */
  function IndexOf(ks: seq<string>, k: string): (i: nat)
    requires k in ks
    ensures i < |ks| && ks[i] == k && k !in ks[..i]
  {
    if ks[0] == k then 0
    else
      assert ks == [ks[0]] + ks[1..];
      IndexOf(ks[1..], k) + 1
  }

  function Without<T>(s: seq<T>, i: nat): seq<T> {
    if i < |s| then s[..i] + s[i + 1..] else s
  }

  function DeleteAll<T>(s: seq<T>, ps: seq<nat>): seq<T> {
    if ps == [] then s else DeleteAll(Without(s, ps[0]), ps[1..])
  }

  predicate Within(cur: seq<nat>, n: nat) {
    forall i :: 0 <= i < |cur| ==> cur[i] < n
  }

  /** The indices the deletions use, in the order of the preserved names that have a default. */
  function Positions(ks: seq<string>, envs: seq<string>): (ps: seq<nat>)
    ensures Within(ps, |ks|)
  {
    if envs == [] then []
    else if KeyOf(envs[0]) in ks then [IndexOf(ks, KeyOf(envs[0]))] + Positions(ks, envs[1..])
    else Positions(ks, envs[1..])
  }

  /** The default lines that no preserved name overrides. */
  function Unpreserved(lines: seq<string>, envs: seq<string>): seq<string> {
    if lines == [] then []
    else
      Unpreserved(lines[..|lines| - 1], envs)
      + if KeyOf(lines[|lines| - 1]) in Keys(envs) then [] else [lines[|lines| - 1]]
  }

  function Merged(lines: seq<string>, envs: seq<string>): seq<string> {
    DeleteAll(lines, Positions(Keys(lines), envs)) + envs
  }

  // ---------- the program ----------

  class EnvFile {
    var lines: seq<string>

    constructor (lines: seq<string>)
      ensures this.lines == lines
    {
      this.lines := lines;
    }

    /** Rewrites the file without one line; an index behind the end removes nothing. */
    method RemoveLineByIndex(index: nat)
      modifies this
      ensures lines == Without(old(lines), index)
    {
      var read := lines;
      lines := [];
      for number := 0 to |read|
        invariant lines == if index < number then read[..index] + read[index + 1..number] else read[..number]
      {
        if number != index {
          lines := lines + [read[number]];
        }
      }
    }

    method RemoveDuplicateDefaultEnv(envs: seq<string>)
      modifies this
      ensures lines == DeleteAll(old(lines), Positions(Keys(old(lines)), envs))
    {
      var defaults: seq<string> := [];
      for i := 0 to |lines|
        invariant defaults == Keys(lines)[..i]
      {
        defaults := defaults + [KeyOf(lines[i])];
      }
      assert Keys(lines)[..|lines|] == Keys(lines);
      ghost var before := lines;
      assert envs[0..] == envs;
      for i := 0 to |envs|
        invariant DeleteAll(before, Positions(defaults, envs)) == DeleteAll(lines, Positions(defaults, envs[i..]))
      {
        if KeyOf(envs[i]) in defaults {
          var index := IndexOf(defaults, KeyOf(envs[i]));
          assert Positions(defaults, envs[i..])[1..] == Positions(defaults, envs[i..][1..]);
          RemoveLineByIndex(index);
        }
        assert envs[i..][1..] == envs[i + 1..];
      }
      assert envs[|envs|..] == [];
    }
  }

  /** generate_env_firmware. Without a preserved list there is nothing to iterate over. */
  method GenerateEnvFirmware(defaults: seq<string>, envs: Option<seq<string>>) returns (r: Result<seq<string>>)
    ensures r == if envs.None? then Err(TypeError) else Ok(Merged(defaults, envs.value))
  {
    if envs.None? {
      return Err(TypeError);
    }
    var file := new EnvFile(defaults);
    file.RemoveDuplicateDefaultEnv(envs.value);
    ghost var kept := file.lines;
    for i := 0 to |envs.value|
      invariant file.lines == kept + envs.value[..i]
    {
      file.lines := file.lines + [envs.value[i]];
    }
    assert envs.value[..|envs.value|] == envs.value;
    r := Ok(file.lines);
  }

  // ---------- when the stale indices are right ----------

  /** The lines whose index is not listed, in order. */
  function Keep<T>(s: seq<T>, ps: seq<nat>): seq<T> {
    if s == [] then []
    else Keep(s[..|s| - 1], ps) + if |s| - 1 in ps then [] else [s[|s| - 1]]
  }

  predicate StrictlyDecreasing(ps: seq<nat>) {
    forall i, j :: 0 <= i < j < |ps| ==> ps[i] > ps[j]
  }

  function Total(ps: seq<nat>): nat {
    if ps == [] then 0 else ps[0] + Total(ps[1..])
  }

  /** Strictly ascending original line numbers. */
  predicate Ascending(cur: seq<nat>) {
    forall i, j :: 0 <= i < j < |cur| ==> cur[i] < cur[j]
  }

  lemma {:induction false} AscendingAtLeast(cur: seq<nat>, i: nat)
    requires Ascending(cur) && i < |cur|
    ensures cur[i] >= i
  {
    if i > 0 {
      AscendingAtLeast(cur, i - 1);
    }
  }

  lemma {:induction false} TotalWithout(cur: seq<nat>, i: nat)
    requires i < |cur|
    ensures Total(Without(cur, i)) + cur[i] == Total(cur)
  {
    if i > 0 {
      TotalWithout(cur[1..], i - 1);
      assert Without(cur, i)[1..] == Without(cur[1..], i - 1);
    } else {
      assert Without(cur, 0) == cur[1..];
    }
  }

  /** Every deletion finds the line with exactly the original number it was meant for. */
  predicate OnTarget(cur: seq<nat>, ps: seq<nat>) {
    ps == [] || (ps[0] < |cur| && cur[ps[0]] == ps[0] && OnTarget(Without(cur, ps[0]), ps[1..]))
  }

  lemma {:induction false} DeleteShrinks<T>(s: seq<T>, ps: seq<nat>)
    ensures |DeleteAll(s, ps)| <= |s|
    ensures |DeleteAll(s, ps)| + |ps| >= |s|
  {
    if ps != [] {
      DeleteShrinks(Without(s, ps[0]), ps[1..]);
    }
  }

  /** The deleted numbers are never below the indices used; if they add up to the same total, each
      deletion was on target. */
  lemma {:induction false} DeletionTotals(cur: seq<nat>, ps: seq<nat>)
    requires Ascending(cur) && |DeleteAll(cur, ps)| + |ps| == |cur|
    ensures Total(DeleteAll(cur, ps)) + Total(ps) <= Total(cur)
    ensures Total(DeleteAll(cur, ps)) + Total(ps) == Total(cur) ==> OnTarget(cur, ps)
  {
    if ps != [] {
      DeleteShrinks(Without(cur, ps[0]), ps[1..]);
      assert ps[0] < |cur|;
      TotalWithout(cur, ps[0]);
      AscendingAtLeast(cur, ps[0]);
      DeletionTotals(Without(cur, ps[0]), ps[1..]);
    }
  }

  lemma {:induction false} OnTargetDecreases(cur: seq<nat>, ps: seq<nat>)
    requires Ascending(cur) && OnTarget(cur, ps)
    ensures StrictlyDecreasing(ps)
  {
    if |ps| > 1 {
      var rest := Without(cur, ps[0]);
      OnTargetDecreases(rest, ps[1..]);
      if ps[1] >= ps[0] {
        AscendingAtLeast(cur[ps[0]..], 0);
        assert rest[ps[1]] == cur[ps[1] + 1];
        AscendingAtLeast(cur, ps[1] + 1);
      }
      assert ps[0] > ps[1];
      forall i, j | 0 <= i < j < |ps|
        ensures ps[i] > ps[j]
      {
        if i > 0 {
          assert ps[1..][i - 1] > ps[1..][j - 1];
        } else if j > 1 {
          assert ps[1..][0] > ps[1..][j - 1];
        }
      }
    }
  }

  lemma {:induction false} KeepSame<T>(s: seq<T>, ps: seq<nat>, qs: seq<nat>)
    requires forall i: nat :: i < |s| ==> (i in ps <==> i in qs)
    ensures Keep(s, ps) == Keep(s, qs)
  {
    if s != [] {
      KeepSame(s[..|s| - 1], ps, qs);
    }
  }

  lemma {:induction false} KeepWithout<T>(s: seq<T>, ps: seq<nat>)
    requires ps != [] && ps[0] < |s| && forall i :: 1 <= i < |ps| ==> ps[i] < ps[0]
    ensures Keep(s, ps) == Keep(Without(s, ps[0]), ps[1..])
  {
    var p, n := ps[0], |s| - 1;
    if n == p {
      assert Without(s, p) == s[..n];
      KeepSame(s[..n], ps, ps[1..]);
    } else {
      KeepWithout(s[..n], ps);
      assert Without(s, p)[..n - 1] == Without(s[..n], p) && Without(s, p)[n - 1] == s[n];
    }
  }

  lemma {:induction false} DecreasingDeletes<T>(s: seq<T>, ps: seq<nat>)
    requires StrictlyDecreasing(ps) && Within(ps, |s|)
    ensures DeleteAll(s, ps) == Keep(s, ps)
  {
    if ps == [] {
      KeepAll(s);
    } else {
      assert forall i :: 1 <= i < |ps| ==> ps[i] < ps[0];
      KeepWithout(s, ps);
      DecreasingDeletes(Without(s, ps[0]), ps[1..]);
    }
  }

  lemma {:induction false} KeepAll<T>(s: seq<T>)
    ensures Keep(s, []) == s
  {
    if s != [] {
      KeepAll(s[..|s| - 1]);
    }
  }

  /** The lines with the given numbers. */
  function Pick<T>(cur: seq<nat>, s: seq<T>): seq<T>
    requires forall i :: 0 <= i < |cur| ==> cur[i] < |s|
  {
    seq(|cur|, i requires 0 <= i < |cur| => s[cur[i]])
  }

  lemma {:induction false} DeletePick<T>(cur: seq<nat>, s: seq<T>, ps: seq<nat>)
    requires Within(cur, |s|)
    ensures Within(DeleteAll(cur, ps), |s|)
    ensures DeleteAll(Pick(cur, s), ps) == Pick(DeleteAll(cur, ps), s)
  {
    if ps != [] {
      assert Without(Pick(cur, s), ps[0]) == Pick(Without(cur, ps[0]), s);
      DeletePick(Without(cur, ps[0]), s, ps[1..]);
    }
  }

  lemma {:induction false} KeepPick<T>(cur: seq<nat>, s: seq<T>, ps: seq<nat>)
    requires Within(cur, |s|)
    ensures Within(Keep(cur, ps), |s|)
    ensures Keep(Pick(cur, s), ps) == Pick(Keep(cur, ps), s)
  {
    if cur != [] {
      var n := |cur| - 1;
      KeepPick(cur[..n], s, ps);
      assert Pick(cur, s)[..n] == Pick(cur[..n], s);
    }
  }

  function Numbers(n: nat): (cur: seq<nat>)
    ensures |cur| == n && Ascending(cur) && Within(cur, n)
  {
    seq(n, i requires 0 <= i < n => i)
  }

  lemma {:induction false} TotalSnoc(s: seq<nat>, x: nat)
    ensures Total(s + [x]) == Total(s) + x
  {
    if s != [] {
      TotalSnoc(s[1..], x);
      assert (s + [x])[1..] == s[1..] + [x];
    }
  }

  lemma KeepNext(n: nat, ps: seq<nat>)
    requires n > 0
    ensures Keep<nat>(Numbers(n), ps) == Keep<nat>(Numbers(n - 1), ps) + if n - 1 in ps then [] else [n - 1]
  {
    assert Numbers(n)[..n - 1] == Numbers(n - 1);
  }

  lemma DropOne(ps: seq<nat>, j: nat)
    requires Distinct(ps) && j < |ps| && Within(ps, ps[j] + 1)
    ensures Distinct(Without(ps, j)) && Within(Without(ps, j), ps[j]) && |Without(ps, j)| == |ps| - 1
    ensures forall i: nat :: i < ps[j] ==> (i in ps <==> i in Without(ps, j))
  {
    var qs := Without(ps, j);
    forall k | 0 <= k < |qs|
      ensures qs[k] < ps[j]
    {
      assert qs[k] == ps[if k < j then k else k + 1];
    }
    assert ps == ps[..j] + [ps[j]] + ps[j + 1..];
  }

  lemma {:induction false} KeepTotal(n: nat, ps: seq<nat>)
    requires Distinct(ps) && Within(ps, n)
    ensures |Keep(Numbers(n), ps)| + |ps| == n
    ensures Total(Keep(Numbers(n), ps)) + Total(ps) == Total(Numbers(n))
  {
    hide Keep, Without;
    if ps == [] {
      KeepAll(Numbers(n));
    } else {
      assert ps[0] < n;
      var m := n - 1;
      assert Numbers(n)[..m] == Numbers(m) && Numbers(n) == Numbers(m) + [m];
      TotalSnoc(Numbers(m), m);
      KeepNext(n, ps);
      if m in ps {
        var j :| 0 <= j < |ps| && ps[j] == m;
        assert Keep<nat>(Numbers(n), ps) == Keep<nat>(Numbers(m), ps);
        DropOne(ps, j);
        KeepSame(Numbers(m), ps, Without(ps, j));
        TotalWithout(ps, j);
        KeepTotal(m, Without(ps, j));
      } else {
        assert forall i :: 0 <= i < |ps| ==> ps[i] in ps;
        KeepTotal(m, ps);
        TotalSnoc(Keep(Numbers(m), ps), m);
      }
    }
  }

  /** Deleting by indices looked up beforehand removes the intended lines exactly when the indices
      are strictly decreasing. */
  lemma DeletionIsRightIff(s: seq<string>, ps: seq<nat>)
    requires Distinct(s) && Distinct(ps) && Within(ps, |s|)
    ensures DeleteAll(s, ps) == Keep(s, ps) <==> StrictlyDecreasing(ps)
  {
    if StrictlyDecreasing(ps) {
      DecreasingDeletes(s, ps);
    }
    if DeleteAll(s, ps) == Keep(s, ps) {
      var cur := Numbers(|s|);
      assert Pick(cur, s) == s;
      DeletePick(cur, s, ps);
      KeepPick(cur, s, ps);
      PickInjective(DeleteAll(cur, ps), Keep(cur, ps), s);
      KeepTotal(|s|, ps);
      DeletionTotals(cur, ps);
      OnTargetDecreases(cur, ps);
    }
  }

  lemma PickInjective(a: seq<nat>, b: seq<nat>, s: seq<string>)
    requires Distinct(s) && Within(a, |s|) && Within(b, |s|) && Pick(a, s) == Pick(b, s)
    ensures a == b
  {
    assert |Pick(a, s)| == |Pick(b, s)|;
    forall i | 0 <= i < |a|
      ensures a[i] == b[i]
    {
      assert Pick(a, s)[i] == Pick(b, s)[i];
    }
  }

  // ---------- what the merge means ----------

  lemma {:induction false} PositionsAre(ks: seq<string>, envs: seq<string>)
    requires Distinct(ks)
    ensures forall i: nat :: i < |ks| ==> (i in Positions(ks, envs) <==> ks[i] in Keys(envs))
  {
    if envs != [] {
      PositionsAre(ks, envs[1..]);
      assert Keys(envs) == [KeyOf(envs[0])] + Keys(envs[1..]);
    }
  }

  lemma {:induction false} PositionsDistinct(ks: seq<string>, envs: seq<string>)
    requires Distinct(ks) && Distinct(Keys(envs))
    ensures Distinct(Positions(ks, envs))
  {
    hide KeyOf, Distinct;
    if envs == [] {
      NoneDistinct();
    } else {
      DistinctTail(envs);
      PositionsDistinct(ks, envs[1..]);
      PositionsAre(ks, envs[1..]);
      if KeyOf(envs[0]) in ks {
        DistinctCons(IndexOf(ks, KeyOf(envs[0])), Positions(ks, envs[1..]));
      }
    }
  }

  lemma NoneDistinct()
    ensures Distinct<nat>([])
  {
  }

  lemma DistinctTail(envs: seq<string>)
    requires envs != [] && Distinct(Keys(envs))
    ensures Distinct(Keys(envs[1..])) && KeyOf(envs[0]) !in Keys(envs[1..])
  {
    hide KeyOf;
    var ks := Keys(envs);
    assert forall i :: 0 <= i < |envs[1..]| ==> Keys(envs[1..])[i] == ks[i + 1];
    assert ks[0] == KeyOf(envs[0]);
  }

  lemma DistinctCons(p: nat, ps: seq<nat>)
    requires Distinct(ps) && p !in ps
    ensures Distinct([p] + ps)
  {
  }

  lemma {:induction false} KeepIsUnpreserved(lines: seq<string>, envs: seq<string>, ps: seq<nat>)
    requires forall i: nat :: i < |lines| ==> (i in ps <==> KeyOf(lines[i]) in Keys(envs))
    ensures Keep(lines, ps) == Unpreserved(lines, envs)
  {
    if lines != [] {
      KeepIsUnpreserved(lines[..|lines| - 1], envs, ps);
    }
  }

  /** With distinct default names and distinct preserved names, the merged environment is the
      unpreserved defaults followed by the preserved values exactly when the preserved names that
      have a default are met in strictly decreasing line order. */
  lemma MergeIsRightIff(lines: seq<string>, envs: seq<string>)
    requires Distinct(Keys(lines)) && Distinct(Keys(envs))
    ensures Merged(lines, envs) == Unpreserved(lines, envs) + envs <==> StrictlyDecreasing(Positions(Keys(lines), envs))
  {
    var ks := Keys(lines);
    var ps := Positions(ks, envs);
    PositionsAre(ks, envs);
    PositionsDistinct(ks, envs);
    KeepIsUnpreserved(lines, envs, ps);
    forall i, j | 0 <= i < j < |lines|
      ensures lines[i] != lines[j]
    {
      assert ks[i] != ks[j];
    }
    DeletionIsRightIff(lines, ps);
    if Merged(lines, envs) == Keep(lines, ps) + envs {
      assert |DeleteAll(lines, ps)| == |Keep(lines, ps)|;
      assert DeleteAll(lines, ps) == Merged(lines, envs)[..|DeleteAll(lines, ps)|];
    }
  }

  /** One preserved name, as shipped, always satisfies the condition. */
  lemma {:induction false} OneNameIsFine(lines: seq<string>, env: string)
    requires Distinct(Keys(lines))
    ensures Merged(lines, [env]) == Unpreserved(lines, [env]) + [env]
  {
    assert Positions(Keys(lines), [env][1..]) == [];
    MergeIsRightIff(lines, [env]);
  }

  /** In the intended result every name is bound once, preserved values win, and exactly the other
      defaults survive. */
  lemma {:induction false} IntendedMerge(lines: seq<string>, envs: seq<string>)
    requires Distinct(Keys(lines)) && Distinct(Keys(envs))
    ensures forall l :: l in Unpreserved(lines, envs) <==> l in lines && KeyOf(l) !in Keys(envs)
    ensures Distinct(Keys(Unpreserved(lines, envs) + envs))
  {
    UnpreservedLines(lines, envs);
    var u := Unpreserved(lines, envs);
    forall i, j | 0 <= i < j < |u + envs|
      ensures Keys(u + envs)[i] != Keys(u + envs)[j]
    {
      if i < |u| <= j {
        assert u[i] in u && KeyOf(envs[j - |u|]) == Keys(envs)[j - |u|];
      } else if j < |u| {
        assert Keys(u)[i] != Keys(u)[j];
      } else {
        assert Keys(envs)[i - |u|] != Keys(envs)[j - |u|];
      }
    }
  }

  lemma {:induction false} UnpreservedLines(lines: seq<string>, envs: seq<string>)
    requires Distinct(Keys(lines))
    ensures forall l :: l in Unpreserved(lines, envs) <==> l in lines && KeyOf(l) !in Keys(envs)
    ensures Distinct(Keys(Unpreserved(lines, envs)))
  {
    if lines != [] {
      var n := |lines| - 1;
      var init, last := lines[..n], lines[n];
      assert forall i :: 0 <= i < n ==> Keys(init)[i] == Keys(lines)[i];
      UnpreservedLines(init, envs);
      assert lines == init + [last];
      var u := Unpreserved(init, envs);
      if KeyOf(last) !in Keys(envs) {
        forall i | 0 <= i < |u|
          ensures KeyOf(u[i]) != KeyOf(last)
        {
          assert u[i] in u;
          var j :| 0 <= j < n && init[j] == u[i];
          assert Keys(lines)[j] != Keys(lines)[n];
        }
        forall i, j | 0 <= i < j < |u + [last]|
          ensures Keys(u + [last])[i] != Keys(u + [last])[j]
        {
          assert j < |u| ==> Keys(u)[i] != Keys(u)[j];
        }
      } else {
        assert Unpreserved(lines, envs) == u;
      }
    }
  }

  /** Two names met in ascending line order: the second deletion hits the line behind its target, so
      one default is lost and one name stays bound twice. */
  lemma AscendingNamesFail()
    ensures Merged(["a=1", "b=2", "c=3"], ["a=8", "b=9"]) == ["b=2", "a=8", "b=9"]
  {
    var lines, envs := ["a=1", "b=2", "c=3"], ["a=8", "b=9"];
    ShortKey("a", "1");
    ShortKey("b", "2");
    ShortKey("c", "3");
    ShortKey("a", "8");
    ShortKey("b", "9");
    assert Keys(lines) == ["a", "b", "c"];
    assert envs[1..] == ["b=9"] && envs[1..][1..] == [];
    assert Positions(Keys(lines), envs[1..][1..]) == [];
    assert Positions(Keys(lines), envs[1..]) == [1];
    assert Positions(Keys(lines), envs) == [0, 1];
    assert Without(lines, 0) == ["b=2", "c=3"];
    assert [0, 1][1..] == [1] && [1][1..] == [];
    assert Without(["b=2", "c=3"], 1) == ["b=2"];
    assert DeleteAll(["b=2", "c=3"], [1]) == ["b=2"];
  }

  lemma ShortKey(name: string, value: string)
    requires |name| == 1 && name[0] != '='
    ensures KeyOf(name + "=" + value) == name
  {
    var line := name + "=" + value;
    assert line[1..][0] == '=';
    assert KeyOf(line[1..]) == "";
  }
}
