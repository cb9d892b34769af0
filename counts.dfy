/** Commit counts per day (`extract_cl_counts`): a dictionary from day to
    number of commits, updated in place once per commit.

    A repository is given by the days of its commits, in changelog order;
    reading the Mercurial changelog and turning timestamps into local days is
    not part of this model. */
module CommitCounts {
  import opened Calendar

  /** A repository path as Mercurial sees it: either it opens, giving the day of
      each commit in its changelog, or opening it fails. */
  datatype Repository = Readable(commitDays: seq<Day>) | Unreadable

  /** Commits recorded for `d`, zero when the day has no entry
      (`cl_counts.get(d, 0)`). */
  function CountOn(counts: map<Day, nat>, d: Day): (c: nat)
    ensures d in counts ==> c == counts[d]
    ensures d !in counts ==> c == 0
    ensures AllPositive(counts) ==> (c > 0 <==> d in counts)
  {
    if d in counts then counts[d] else 0
  }

  /** The dictionary after one more commit on day `d`. */
  function Increment(counts: map<Day, nat>, d: Day): map<Day, nat>
  {
    if d in counts then counts[d := counts[d] + 1] else counts[d := 1]
  }

  /** The dictionary after one commit per element of `days`, in order. */
  function Tally(counts: map<Day, nat>, days: seq<Day>): map<Day, nat>
  {
    if days == [] then counts
    else Increment(Tally(counts, days[..|days| - 1]), days[|days| - 1])
  }

  /** One more commit on `d` adds `d` to the keys, adds one to its count and
      leaves every other day's count alone. */
  lemma IncrementEffect(counts: map<Day, nat>, d: Day)
    ensures Increment(counts, d).Keys == counts.Keys + {d}
    ensures CountOn(Increment(counts, d), d) == CountOn(counts, d) + 1
    ensures forall e :: e != d ==> CountOn(Increment(counts, d), e) == CountOn(counts, e)
  {
  }

  /** Every stored count is at least one. */
  ghost predicate AllPositive(counts: map<Day, nat>)
  {
    forall d :: d in counts ==> counts[d] >= 1
  }

  /** Sum of the counts stored under `keys`. */
  ghost function SumOver(counts: map<Day, nat>, keys: set<Day>): nat
    requires keys <= counts.Keys
    decreases keys
  {
    if keys == {} then 0
    else
      NonEmptyHasMember(keys);
      var k :| k in keys;
      counts[k] + SumOver(counts, keys - {k})
  }

  /** Sum of all stored counts (`sum(cl_counts.itervalues())`). */
  ghost function Total(counts: map<Day, nat>): (t: nat)
    ensures counts == map[] ==> t == 0
  {
    SumOver(counts, counts.Keys)
  }

  /** The dictionary `cl_counts` that `main` fills in. */
  class ClCounts {
    var counts: map<Day, nat>

    ghost predicate Valid()
      reads this
    {
      AllPositive(counts)
    }

    constructor ()
      ensures Valid() && counts == map[]
    {
      counts := map[];
    }

    /** Opens the repository and adds one to the day of each of its commits
        (`extract_cl_counts`). Opening fails before anything is counted. */
    method ExtractClCounts(repository: Repository) returns (readable: bool)
      requires Valid()
      modifies this
      ensures Valid()
      ensures readable == repository.Readable?
      ensures counts == if readable then Tally(old(counts), repository.commitDays) else old(counts)
    {
      if repository.Unreadable? {
        return false;
      }
      readable := true;
      var commitDays := repository.commitDays;
      for i := 0 to |commitDays|
        invariant counts == Tally(old(counts), commitDays[..i])
        invariant AllPositive(counts)
      {
        var clDate := commitDays[i];
        assert commitDays[..i + 1][..i] == commitDays[..i];
        if clDate in counts {
          counts := counts[clDate := counts[clDate] + 1];
        } else {
          counts := counts[clDate := 1];
        }
      }
      assert commitDays[..|commitDays|] == commitDays;
    }
  }

  /** Sums the stored counts by visiting every key once. */
  method TotalCount(counts: map<Day, nat>) returns (total: nat)
    ensures total == Total(counts)
  {
    total := 0;
    var remaining := counts.Keys;
    while remaining != {}
      invariant remaining <= counts.Keys
      invariant total + SumOver(counts, remaining) == Total(counts)
      decreases remaining
    {
      var d :| d in remaining;
      SumOverRemove(counts, remaining, d);
      total := total + counts[d];
      remaining := remaining - {d};
    }
  }

  // ---------------------------------------------------------------------
  // Sums over maps

  lemma NonEmptyHasMember(keys: set<Day>)
    requires keys != {}
    ensures exists d :: d in keys
  {
    if forall d :: d !in keys {
      assert false;
    }
  }

  /** The sum does not depend on the order in which keys are visited. */
  lemma {:induction false} SumOverRemove(counts: map<Day, nat>, keys: set<Day>, d: Day)
    requires keys <= counts.Keys && d in keys
    ensures SumOver(counts, keys) == counts[d] + SumOver(counts, keys - {d})
    decreases keys
  {
    var k :| k in keys && SumOver(counts, keys) == counts[k] + SumOver(counts, keys - {k});
    if k != d {
      SumOverRemove(counts, keys - {k}, d);
      SumOverRemove(counts, keys - {d}, k);
      assert keys - {k} - {d} == keys - {d} - {k};
    }
  }

  /** The sum only reads the counts stored under `keys`. */
  lemma {:induction false} SumOverAgree(a: map<Day, nat>, b: map<Day, nat>, keys: set<Day>)
    requires keys <= a.Keys && keys <= b.Keys
    requires forall d :: d in keys ==> a[d] == b[d]
    ensures SumOver(a, keys) == SumOver(b, keys)
    decreases keys
  {
    if keys != {} {
      NonEmptyHasMember(keys);
      var d :| d in keys;
      SumOverRemove(a, keys, d);
      SumOverRemove(b, keys, d);
      SumOverAgree(a, b, keys - {d});
    }
  }

  /** One more commit adds one to the total. */
  lemma IncrementTotal(counts: map<Day, nat>, d: Day)
    ensures Total(Increment(counts, d)) == Total(counts) + 1
  {
    var after := Increment(counts, d);
    if d in counts {
      assert after.Keys == counts.Keys;
      SumOverRemove(after, after.Keys, d);
      SumOverRemove(counts, counts.Keys, d);
      SumOverAgree(after, counts, counts.Keys - {d});
    } else {
      assert after.Keys - {d} == counts.Keys;
      SumOverRemove(after, after.Keys, d);
      SumOverAgree(after, counts, counts.Keys);
    }
  }

  // ---------------------------------------------------------------------
  // Properties of the aggregation

  /** After a list of commits, each day's count is its old count plus the
      number of commits on that day. */
  lemma {:induction false} TallyCount(counts: map<Day, nat>, days: seq<Day>, d: Day)
    ensures CountOn(Tally(counts, days), d) == CountOn(counts, d) + multiset(days)[d]
  {
    if days != [] {
      var init := days[..|days| - 1];
      assert days == init + [days[|days| - 1]];
      TallyCount(counts, init, d);
    }
  }

  /** The keys after a list of commits are the old keys and the commit days;
      days without commits are left alone. */
  lemma {:induction false} TallyKeys(counts: map<Day, nat>, days: seq<Day>)
    ensures Tally(counts, days).Keys == counts.Keys + set d | d in days
  {
    if days != [] {
      var init := days[..|days| - 1];
      assert days == init + [days[|days| - 1]];
      TallyKeys(counts, init);
    }
  }

  /** Counting keeps every stored value at least one. */
  lemma {:induction false} TallyPositive(counts: map<Day, nat>, days: seq<Day>)
    requires AllPositive(counts)
    ensures AllPositive(Tally(counts, days))
  {
    if days != [] {
      TallyPositive(counts, days[..|days| - 1]);
    }
  }

  /** The total grows by the number of commits. */
  lemma {:induction false} TallyTotal(counts: map<Day, nat>, days: seq<Day>)
    ensures Total(Tally(counts, days)) == Total(counts) + |days|
  {
    if days != [] {
      TallyTotal(counts, days[..|days| - 1]);
      IncrementTotal(Tally(counts, days[..|days| - 1]), days[|days| - 1]);
    }
  }

  /** Counting `a` and then `b` is counting `a + b`. */
  lemma {:induction false} TallyConcat(counts: map<Day, nat>, a: seq<Day>, b: seq<Day>)
    ensures Tally(counts, a + b) == Tally(Tally(counts, a), b)
  {
    if b == [] {
      assert a + b == a;
    } else {
      var init := b[..|b| - 1];
      assert (a + b)[..|a + b| - 1] == a + init;
      TallyConcat(counts, a, init);
    }
  }

  /** The result does not depend on the order of the commits. */
  lemma TallyPermutation(counts: map<Day, nat>, a: seq<Day>, b: seq<Day>)
    requires multiset(a) == multiset(b)
    ensures Tally(counts, a) == Tally(counts, b)
  {
    TallyKeys(counts, a);
    TallyKeys(counts, b);
    assert (set d | d in a) == (set d | d in b) by {
      forall d ensures d in a <==> d in b {
        assert d in a <==> d in multiset(a);
        assert d in b <==> d in multiset(b);
      }
    }
    forall d | d in Tally(counts, a)
      ensures Tally(counts, a)[d] == Tally(counts, b)[d]
    {
      TallyCount(counts, a, d);
      TallyCount(counts, b, d);
    }
  }
}
