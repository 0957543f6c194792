/** The skills editor's list discipline: adding a skill first removes every
    chip with the same name, then appends the new chip at the end. */
module Skills {
  import opened Seqs
  import opened Entities

  function OtherName(n: string): Skill -> bool {
    (k: Skill) => k.name != n
  }

  /** The chips left after removing every chip named `n`. */
  function RemoveNamed(s: seq<Skill>, n: string): seq<Skill> {
    Filter(s, OtherName(n))
  }

  /** The list after `addSkillChip(n, r)`. */
  function Upsert(s: seq<Skill>, n: string, r: int): seq<Skill> {
    RemoveNamed(s, n) + [Skill(n, r)]
  }

  /** How many chips are named `n`. */
  function CountNamed(s: seq<Skill>, n: string): nat
    decreases |s|
  {
    if |s| == 0 then 0 else (if s[0].name == n then 1 else 0) + CountNamed(s[1..], n)
  }

  /** No two chips share a name. */
  predicate NamesUnique(s: seq<Skill>) {
    forall i, j :: 0 <= i < j < |s| ==> s[i].name != s[j].name
  }

  function NameSet(s: seq<Skill>): set<string> {
    set k | k in s :: k.name
  }

  /** Removing the chips named `n` removes exactly `CountNamed(s, n)` of them
      and leaves none named `n`. */
  lemma {:induction false} RemoveNamedCount(s: seq<Skill>, n: string)
    ensures |RemoveNamed(s, n)| + CountNamed(s, n) == |s|
    ensures CountNamed(RemoveNamed(s, n), n) == 0
    decreases |s|
  {
    if |s| > 0 {
      RemoveNamedCount(s[1..], n);
      var rest := RemoveNamed(s[1..], n);
      if s[0].name != n {
        assert RemoveNamed(s, n) == [s[0]] + rest;
        assert ([s[0]] + rest)[1..] == rest;
      } else {
        assert RemoveNamed(s, n) == rest;
      }
    }
  }

  lemma {:induction false} CountNamedAppend(a: seq<Skill>, b: seq<Skill>, n: string)
    ensures CountNamed(a + b, n) == CountNamed(a, n) + CountNamed(b, n)
    decreases |a|
  {
    if |a| > 0 {
      assert (a + b)[1..] == a[1..] + b;
      CountNamedAppend(a[1..], b, n);
    } else {
      assert a + b == b;
    }
  }

  /** Removing the chips named `n` leaves every other chip, in order. */
  lemma RemoveNamedKeepsOthers(s: seq<Skill>, n: string)
    ensures IsSubsequence(RemoveNamed(s, n), s)
    ensures forall k :: k in RemoveNamed(s, n) <==> k in s && k.name != n
  {
    FilterIsSubsequence(s, OtherName(n));
    forall k ensures k in RemoveNamed(s, n) <==> k in s && k.name != n {
      FilterMembership(s, OtherName(n), k);
    }
  }

  /** After adding (n, r) there is exactly one chip named n, it is the last
      one and carries r; the chips with other names are the ones before, in
      the same order; the length grows by one when n was absent and stays the
      same when n occurred once. */
  lemma UpsertSpec(s: seq<Skill>, n: string, r: int)
    ensures CountNamed(Upsert(s, n, r), n) == 1
    ensures Upsert(s, n, r)[|Upsert(s, n, r)| - 1] == Skill(n, r)
    ensures RemoveNamed(Upsert(s, n, r), n) == RemoveNamed(s, n)
    ensures |Upsert(s, n, r)| == |s| - CountNamed(s, n) + 1
    ensures CountNamed(s, n) == 0 ==> |Upsert(s, n, r)| == |s| + 1
    ensures CountNamed(s, n) == 1 ==> |Upsert(s, n, r)| == |s|
  {
    var kept := RemoveNamed(s, n);
    RemoveNamedCount(s, n);
    CountNamedAppend(kept, [Skill(n, r)], n);
    assert CountNamed([Skill(n, r)], n) == 1;
    FilterAppend(kept, [Skill(n, r)], OtherName(n));
    FilterIdempotent(s, OtherName(n));
    assert Filter([Skill(n, r)], OtherName(n)) == [];
  }

  /** Adding a chip never introduces a duplicate name. */
  lemma UpsertKeepsUnique(s: seq<Skill>, n: string, r: int)
    requires NamesUnique(s)
    ensures NamesUnique(Upsert(s, n, r))
  {
    var kept := RemoveNamed(s, n);
    var u := Upsert(s, n, r);
    RemoveNamedKeepsOthers(s, n);
    forall i, j | 0 <= i < j < |u| ensures u[i].name != u[j].name {
      assert u[i] == kept[i] && u[i] in kept;
      if j == |u| - 1 {
        assert u[j] == Skill(n, r);
      } else {
        assert u[j] == kept[j] && u[j] in kept;
        SubsequenceKeepsDistinct(kept, s, i, j);
      }
    }
  }

  /** Two positions of a subsequence of a list with unique names hold
      different names. */
  lemma {:induction false} SubsequenceKeepsDistinct(sub: seq<Skill>, s: seq<Skill>, i: nat, j: nat)
    requires IsSubsequence(sub, s) && NamesUnique(s)
    requires i < j < |sub|
    ensures sub[i].name != sub[j].name
    decreases |s|
  {
    if sub[0] == s[0] {
      assert NamesUnique(s[1..]) by {
        forall a, b | 0 <= a < b < |s[1..]| ensures s[1..][a].name != s[1..][b].name {
          assert s[1..][a] == s[a + 1] && s[1..][b] == s[b + 1];
        }
      }
      if i == 0 {
        SubsequenceMembers(sub[1..], s[1..], j - 1);
        var m :| 0 <= m < |s[1..]| && s[1..][m] == sub[j];
        assert s[m + 1] == sub[j];
      } else {
        SubsequenceKeepsDistinct(sub[1..], s[1..], i - 1, j - 1);
      }
    } else {
      assert NamesUnique(s[1..]) by {
        forall a, b | 0 <= a < b < |s[1..]| ensures s[1..][a].name != s[1..][b].name {
          assert s[1..][a] == s[a + 1] && s[1..][b] == s[b + 1];
        }
      }
      SubsequenceKeepsDistinct(sub, s[1..], i, j);
    }
  }

  lemma {:induction false} SubsequenceMembers(sub: seq<Skill>, s: seq<Skill>, i: nat)
    requires IsSubsequence(sub, s) && i < |sub|
    ensures exists m :: 0 <= m < |s| && s[m] == sub[i]
    decreases |s|
  {
    if sub[0] == s[0] {
      if i == 0 {
        assert s[0] == sub[0];
      } else {
        SubsequenceMembers(sub[1..], s[1..], i - 1);
        var m :| 0 <= m < |s[1..]| && s[1..][m] == sub[1..][i - 1];
        assert s[m + 1] == sub[i];
      }
    } else {
      SubsequenceMembers(sub, s[1..], i);
      var m :| 0 <= m < |s[1..]| && s[1..][m] == sub[i];
      assert s[m + 1] == sub[i];
    }
  }

  /** The chip list the edit view rebuilds by replaying a stored record's
      skills, in order, through `addSkillChip`. */
  function Replay(stored: seq<Skill>): seq<Skill>
    decreases |stored|
  {
    if |stored| == 0 then []
    else
      var last := stored[|stored| - 1];
      Upsert(Replay(stored[..|stored| - 1]), last.name, last.rating)
  }

  /** Replaying collapses duplicate names: the rebuilt list has unique names
      and the same set of names as the stored list. */
  lemma {:induction false} ReplaySpec(stored: seq<Skill>)
    ensures NamesUnique(Replay(stored))
    ensures NameSet(Replay(stored)) == NameSet(stored)
    decreases |stored|
  {
    if |stored| > 0 {
      var init := stored[..|stored| - 1];
      var last := stored[|stored| - 1];
      ReplaySpec(init);
      var prev := Replay(init);
      UpsertKeepsUnique(prev, last.name, last.rating);
      RemoveNamedKeepsOthers(prev, last.name);
      var u := Upsert(prev, last.name, last.rating);
      assert stored == init + [last];
      forall x ensures x in NameSet(u) <==> x in NameSet(stored) {
        if x == last.name {
          assert Skill(last.name, last.rating) in u;
          assert last in stored;
        } else {
          if x in NameSet(u) {
            var k :| k in u && k.name == x;
            assert k in RemoveNamed(prev, last.name);
            assert k.name in NameSet(prev);
            var k2 :| k2 in init && k2.name == x;
            assert k2 in stored;
          }
          if x in NameSet(stored) {
            var k :| k in stored && k.name == x;
            assert k in init;
            assert x in NameSet(prev);
            var k2 :| k2 in prev && k2.name == x;
            assert k2 in RemoveNamed(prev, last.name);
            assert k2 in u;
          }
        }
      }
    }
  }

  /** Replaying a list that already has unique names rebuilds it exactly. */
  lemma {:induction false} ReplayOfUnique(stored: seq<Skill>)
    requires NamesUnique(stored)
    ensures Replay(stored) == stored
    decreases |stored|
  {
    if |stored| > 0 {
      var init := stored[..|stored| - 1];
      var last := stored[|stored| - 1];
      assert init + [last] == stored;
      assert NamesUnique(init) by {
        forall a, b | 0 <= a < b < |init| ensures init[a].name != init[b].name {
          assert init[a] == stored[a] && init[b] == stored[b];
        }
      }
      ReplayOfUnique(init);
      forall i | 0 <= i < |init| ensures OtherName(last.name)(init[i]) {
        assert init[i] == stored[i];
      }
      FilterKeepsAll(init, OtherName(last.name));
      assert RemoveNamed(init, last.name) == init;
      assert Replay(stored) == init + [Skill(last.name, last.rating)];
    }
  }
}
