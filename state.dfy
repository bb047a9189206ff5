/** The game-state register: the current and previous game state and the targeting
  * fields, and the rule that prunes old save files before a new save is recorded. */
module GameStateRegister {
  import opened Common

  /** The part of the data store the register reads and writes. */
  class Register {
    var current: GameState
    var previous: GameState
    var activeSkill: Option<string>
    var activeSkillTarget: Option<Pos>
    var skillTargetValid: bool

    constructor (current: GameState, previous: GameState)
      ensures this.current == current && this.previous == previous
      ensures activeSkill == None && activeSkillTarget == None && !skillTargetValid
    {
      this.current, this.previous := current, previous;
      activeSkill, activeSkillTarget, skillTargetValid := None, None, false;
    }

    /** `get_current` */
    function GetCurrent(): GameState
      reads this`current
    {
      current
    }

    /** `get_previous` */
    function GetPrevious(): GameState
      reads this`previous
    {
      previous
    }

    /** `get_active_skill` */
    function GetActiveSkill(): Option<string>
      reads this`activeSkill
    {
      activeSkill
    }

    /** `get_active_skill_target` */
    function GetActiveSkillTarget(): Option<Pos>
      reads this`activeSkillTarget
    {
      activeSkillTarget
    }

    /** `get_skill_target_valid` */
    function GetSkillTargetValid(): bool
      reads this`skillTargetValid
    {
      skillTargetValid
    }

    /** `set_new`: the state that was current becomes the previous one and `s` the
      * current one; the targeting fields stay. */
    method SetNew(s: GameState)
      modifies this`current, this`previous
      ensures GetCurrent() == s && GetPrevious() == old(GetCurrent())
    {
      previous := current;
      current := s;
    }

    /** `set_active_skill`: only the active skill changes. */
    method SetActiveSkill(name: string)
      modifies this`activeSkill
      ensures GetActiveSkill() == Some(name)
    {
      activeSkill := Some(name);
    }

    /** `set_active_skill_target`: only the target changes. */
    method SetActiveSkillTarget(target: Pos)
      modifies this`activeSkillTarget
      ensures GetActiveSkillTarget() == Some(target)
    {
      activeSkillTarget := Some(target);
    }

    /** `set_skill_target_valid`: only the validity flag changes. */
    method SetSkillTargetValid(valid: bool)
      modifies this`skillTargetValid
      ensures GetSkillTargetValid() == valid
    {
      skillTargetValid := valid;
    }
  }

  /** Two state changes in a row: the second state is current and the first is previous,
    * whatever the register held before. */
  method SetNewTwice(r: Register, a: GameState, b: GameState)
    modifies r`current, r`previous
    ensures r.GetCurrent() == b && r.GetPrevious() == a
  {
    r.SetNew(a);
    r.SetNew(b);
  }

  /** Setting the targeting fields one after the other keeps each value set and the game
    * states as they were. */
  method SetTargeting(r: Register, name: string, target: Pos, valid: bool)
    modifies r`activeSkill, r`activeSkillTarget, r`skillTargetValid
    ensures r.GetActiveSkill() == Some(name) && r.GetActiveSkillTarget() == Some(target)
    ensures r.GetSkillTargetValid() == valid
    ensures r.GetCurrent() == old(r.GetCurrent()) && r.GetPrevious() == old(r.GetPrevious())
  {
    r.SetActiveSkill(name);
    r.SetActiveSkillTarget(target);
    r.SetSkillTargetValid(valid);
  }

  // Save pruning

  /** `a <= b` for Python strings: code point by code point, a proper prefix first. */
  predicate StrLe(a: string, b: string)
    decreases |a|
  {
    |a| == 0 || (|b| > 0 && (a[0] < b[0] || (a[0] == b[0] && StrLe(a[1..], b[1..]))))
  }

  lemma {:induction false} StrLeTotal(a: string, b: string)
    ensures StrLe(a, b) || StrLe(b, a)
    decreases |a|
  {
    if |a| > 0 && |b| > 0 && a[0] == b[0] {
      StrLeTotal(a[1..], b[1..]);
    }
  }

  lemma {:induction false} StrLeTransitive(a: string, b: string, c: string)
    requires StrLe(a, b) && StrLe(b, c)
    ensures StrLe(a, c)
    decreases |a|
  {
    if |a| > 0 && a[0] == b[0] && b[0] == c[0] {
      StrLeTransitive(a[1..], b[1..], c[1..]);
    }
  }

  predicate SortedStrings(s: seq<string>)
  {
    forall i, j | 0 <= i < j < |s| :: StrLe(s[i], s[j])
  }

  /** `x` placed before the first element it does not exceed. */
  function Insert(x: string, s: seq<string>): seq<string>
  {
    if |s| == 0 then [x]
    else if StrLe(x, s[0]) then [x] + s
    else [s[0]] + Insert(x, s[1..])
  }

  /** Python's `sorted` on a list of strings. */
  function SortStrings(s: seq<string>): seq<string>
  {
    if |s| == 0 then [] else Insert(s[0], SortStrings(s[1..]))
  }

  /** Insertion adds exactly `x`. */
  lemma {:induction false} InsertPermutes(x: string, s: seq<string>)
    ensures multiset(Insert(x, s)) == multiset(s) + multiset{x}
  {
    if |s| > 0 && !StrLe(x, s[0]) {
      InsertPermutes(x, s[1..]);
      assert s == [s[0]] + s[1..];
    }
  }

  /** `x` below every element of a sorted list may go in front of it. */
  lemma PrependSorted(x: string, s: seq<string>)
    requires SortedStrings(s)
    requires forall j | 0 <= j < |s| :: StrLe(x, s[j])
    ensures SortedStrings([x] + s)
  {
    var r := [x] + s;
    forall i, j | 0 <= i < j < |r| ensures StrLe(r[i], r[j]) {
      assert r[j] == s[j - 1];
      if i > 0 { assert r[i] == s[i - 1]; }
    }
  }

  lemma {:induction false} InsertSorted(x: string, s: seq<string>)
    requires SortedStrings(s)
    ensures SortedStrings(Insert(x, s))
  {
    if |s| == 0 {
    } else if StrLe(x, s[0]) {
      forall j | 0 <= j < |s| ensures StrLe(x, s[j]) {
        if j > 0 { StrLeTransitive(x, s[0], s[j]); }
      }
      PrependSorted(x, s);
    } else {
      StrLeTotal(x, s[0]);
      var tail := Insert(x, s[1..]);
      assert SortedStrings(s[1..]) by {
        forall i, j | 0 <= i < j < |s[1..]| ensures StrLe(s[1..][i], s[1..][j]) {
          assert s[1..][i] == s[i + 1] && s[1..][j] == s[j + 1];
        }
      }
      InsertSorted(x, s[1..]);
      InsertPermutes(x, s[1..]);
      forall k | 0 <= k < |tail| ensures StrLe(s[0], tail[k]) {
        assert tail[k] in multiset(tail);
        if tail[k] != x {
          assert tail[k] in multiset(s[1..]);
          var j :| 0 <= j < |s[1..]| && s[1..][j] == tail[k];
          assert s[j + 1] == tail[k];
        }
      }
      PrependSorted(s[0], tail);
    }
  }

  /** `sorted` returns the same names, in order. */
  lemma {:induction false} SortStringsCorrect(s: seq<string>)
    ensures SortedStrings(SortStrings(s))
    ensures multiset(SortStrings(s)) == multiset(s)
  {
    if |s| > 0 {
      SortStringsCorrect(s[1..]);
      InsertSorted(s[0], SortStrings(s[1..]));
      InsertPermutes(s[0], SortStrings(s[1..]));
      assert s == [s[0]] + s[1..];
    }
  }

  /** `prefix in name` for strings: `prefix` occurs somewhere in `name`. */
  predicate ContainsText(name: string, prefix: string)
    decreases |name|
  {
    |prefix| <= |name| && (name[..|prefix|] == prefix || ContainsText(name[1..], prefix))
  }

  /** The names in the listing that contain the prefix, in listing order. */
  function Matching(listing: seq<string>, prefix: string): (r: seq<string>)
    ensures forall n | n in r :: n in listing && ContainsText(n, prefix)
  {
    if |listing| == 0 then []
    else
      Matching(listing[..|listing| - 1], prefix) +
      (if ContainsText(listing[|listing| - 1], prefix) then [listing[|listing| - 1]] else [])
  }

  /** The number of saves kept when `maxSaves` is allowed: one place is left for the new
    * save. */
  function KeptCount(n: nat, maxSaves: int): nat
  {
    if maxSaves - 1 < 0 then 0 else if n <= maxSaves - 1 then n else maxSaves - 1
  }

  /** The listing loop: every name containing the save prefix is collected. */
  method MatchingSaves(listing: seq<string>, prefix: string) returns (existing: seq<string>)
    ensures existing == Matching(listing, prefix)
  {
    existing := [];
    var i := 0;
    while i < |listing|
      invariant 0 <= i <= |listing|
      invariant existing == Matching(listing[..i], prefix)
    {
      assert listing[..i + 1][..i] == listing[..i];
      if ContainsText(listing[i], prefix) {
        existing := existing + [listing[i]];
      }
      i := i + 1;
    }
    assert listing[..|listing|] == listing;
  }

  /** The `while` loop of the pruning: the first name is popped (its file removed) while
    * more than `maxSaves - 1` remain. With `maxSaves` below one the loop empties the list
    * and then pops from an empty list, which raises. */
  method PopOldest(existing: seq<string>, maxSaves: int) returns (removed: seq<string>, kept: seq<string>, raised: bool)
    ensures var cut := |existing| - KeptCount(|existing|, maxSaves);
            removed == existing[..cut] && kept == existing[cut..]
    ensures raised <==> maxSaves < 1
  {
    kept := existing;
    removed := [];
    var n := 0;
    while |kept| > maxSaves - 1
      invariant 0 <= n <= |existing|
      invariant removed == existing[..n] && kept == existing[n..]
      invariant |kept| >= KeptCount(|existing|, maxSaves)
      decreases |kept|
    {
      if |kept| == 0 {
        assert existing[..n] == existing;
        return removed, kept, true;
      }
      assert existing[..n + 1] == existing[..n] + [kept[0]];
      removed := removed + [kept[0]];
      kept := kept[1..];
      n := n + 1;
    }
    return removed, kept, false;
  }

  /** The pruning in `save_game`: the directory's names containing the save prefix are
    * collected, sorted, and the oldest-named are removed. */
  method PruneSaves(listing: seq<string>, prefix: string, maxSaves: int)
    returns (removed: seq<string>, kept: seq<string>, raised: bool)
    ensures var sorted := SortStrings(Matching(listing, prefix));
            var cut := |sorted| - KeptCount(|sorted|, maxSaves);
            removed == sorted[..cut] && kept == sorted[cut..]
    ensures raised <==> maxSaves < 1
  {
    var existing := MatchingSaves(listing, prefix);
    existing := SortStrings(existing);
    removed, kept, raised := PopOldest(existing, maxSaves);
  }

  /** At most `maxSaves - 1` matching saves are kept, and every removed name sorts before
    * or equal to every kept one: the oldest-named saves go first. */
  lemma PruneKeepsNewest(listing: seq<string>, prefix: string, maxSaves: int)
    ensures var sorted := SortStrings(Matching(listing, prefix));
            var cut := |sorted| - KeptCount(|sorted|, maxSaves);
            (maxSaves >= 1 ==> |sorted[cut..]| <= maxSaves - 1) &&
            (forall i, j | 0 <= i < cut <= j < |sorted| :: StrLe(sorted[i], sorted[j])) &&
            multiset(sorted[..cut]) + multiset(sorted[cut..]) == multiset(Matching(listing, prefix))
  {
    var sorted := SortStrings(Matching(listing, prefix));
    SortStringsCorrect(Matching(listing, prefix));
    var cut := |sorted| - KeptCount(|sorted|, maxSaves);
    assert sorted[..cut] + sorted[cut..] == sorted;
  }
}
