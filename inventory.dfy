/** The inventory ledger: oldest-first depletion of a batch list and the
    end-of-round aging that charges storage and flags obsolete batches. */
module Inventory {
  import opened Domain

  /** Storage rate used when the caller passes none. */
  const DefaultStorageRate: real := 0.20

  /** A batch older than this many rounds is obsolete. */
  const ObsoleteAge: nat := 3

  // ---------------------------------------------------------------------------
  // Ordering by age, oldest first
  // ---------------------------------------------------------------------------

  /** Oldest (largest age) first; equal ages in any order. */
  predicate SortedByAge(s: seq<Batch>)
  {
    forall i, j :: 0 <= i < j < |s| ==> s[i].age >= s[j].age
  }

  /** Puts b in front of the first batch that is not older than it, so that b
      stays ahead of equally old batches that followed it: the insertion step
      of a stable sort. */
  function InsertByAge(b: Batch, s: seq<Batch>): seq<Batch>
  {
    if s == [] || b.age >= s[0].age then [b] + s
    else [s[0]] + InsertByAge(b, s[1..])
  }

  /** The list ordered by descending age, keeping the input order among equal
      ages (the stable sort the engine runs with comparator b.age - a.age). */
  function SortByAge(s: seq<Batch>): seq<Batch>
  {
    if s == [] then [] else InsertByAge(s[0], SortByAge(s[1..]))
  }

  /** Inserting into an age-ordered list keeps it ordered, adds exactly the
      one batch, and puts either that batch or the old head in front. */
  lemma InsertByAgeFacts(b: Batch, s: seq<Batch>)
    requires SortedByAge(s)
    ensures SortedByAge(InsertByAge(b, s))
    ensures multiset(InsertByAge(b, s)) == multiset{b} + multiset(s)
    ensures |InsertByAge(b, s)| == |s| + 1
    ensures InsertByAge(b, s)[0] == b || InsertByAge(b, s)[0] == s[0]
  {
    InsertSorted(b, s);
    InsertPermutes(b, s);
  }

  lemma {:induction false} InsertSorted(b: Batch, s: seq<Batch>)
    requires SortedByAge(s)
    ensures SortedByAge(InsertByAge(b, s))
    ensures |InsertByAge(b, s)| == |s| + 1
    ensures InsertByAge(b, s)[0] == b || InsertByAge(b, s)[0] == s[0]
  {
    if s == [] || b.age >= s[0].age {
      SortedCons(b, s);
    } else {
      assert SortedByAge(s[1..]);
      InsertSorted(b, s[1..]);
      SortedCons(s[0], InsertByAge(b, s[1..]));
    }
  }

  lemma {:induction false} InsertPermutes(b: Batch, s: seq<Batch>)
    ensures multiset(InsertByAge(b, s)) == multiset{b} + multiset(s)
  {
    if s != [] && b.age < s[0].age {
      InsertPermutes(b, s[1..]);
      assert s == [s[0]] + s[1..];
    }
  }

  /** A batch at least as old as an ordered list's head can go in front. */
  lemma SortedCons(x: Batch, t: seq<Batch>)
    requires SortedByAge(t) && (t == [] || x.age >= t[0].age)
    ensures SortedByAge([x] + t)
  {
    forall i, j | 0 <= i < j < |[x] + t|
      ensures ([x] + t)[i].age >= ([x] + t)[j].age
    {
      if i > 0 {
        assert ([x] + t)[i] == t[i - 1];
      } else if j > 1 {
        assert t[0].age >= t[j - 1].age;
      }
    }
  }

  /** The sort yields an age-ordered permutation of its input. */
  lemma {:induction false} SortByAgeFacts(s: seq<Batch>)
    ensures SortedByAge(SortByAge(s))
    ensures multiset(SortByAge(s)) == multiset(s)
    ensures |SortByAge(s)| == |s|
  {
    if s != [] {
      SortByAgeFacts(s[1..]);
      InsertByAgeFacts(s[0], SortByAge(s[1..]));
      assert s == [s[0]] + s[1..];
    }
  }

  /** The batches of age a, in their order in s. */
  function WithAge(s: seq<Batch>, a: int): seq<Batch>
  {
    if s == [] then []
    else if s[0].age == a then [s[0]] + WithAge(s[1..], a)
    else WithAge(s[1..], a)
  }

  /** Insertion passes only batches strictly older than b, so among the
      batches of b's age, b lands first and the others keep their order. */
  lemma {:induction false} InsertWithAge(b: Batch, s: seq<Batch>, a: int)
    ensures WithAge(InsertByAge(b, s), a) == if b.age == a then [b] + WithAge(s, a) else WithAge(s, a)
  {
    if s == [] || b.age >= s[0].age {
      assert ([b] + s)[1..] == s;
    } else {
      InsertWithAge(b, s[1..], a);
      assert ([s[0]] + InsertByAge(b, s[1..]))[1..] == InsertByAge(b, s[1..]);
    }
  }

  /** The sort is stable: for every age, the batches of that age come out in
      the order they went in. */
  lemma {:induction false} SortByAgeStable(s: seq<Batch>, a: int)
    ensures WithAge(SortByAge(s), a) == WithAge(s, a)
  {
    if s != [] {
      SortByAgeStable(s[1..], a);
      InsertWithAge(s[0], SortByAge(s[1..]), a);
    }
  }

  /** Sorting keeps the total units of the positive batches. */
  lemma {:induction false} SortByAgePositiveUnits(s: seq<Batch>)
    ensures Units(Positive(SortByAge(s))) == Units(Positive(s))
  {
    if s != [] {
      SortByAgePositiveUnits(s[1..]);
      InsertPositiveUnits(s[0], SortByAge(s[1..]));
    }
  }

  lemma {:induction false} InsertPositiveUnits(b: Batch, s: seq<Batch>)
    ensures Units(Positive(InsertByAge(b, s))) == Units(Positive([b])) + Units(Positive(s))
  {
    if s == [] || b.age >= s[0].age {
      assert ([b] + s)[1..] == s;
    } else {
      InsertPositiveUnits(b, s[1..]);
      assert ([s[0]] + InsertByAge(b, s[1..]))[1..] == InsertByAge(b, s[1..]);
    }
  }

  // ---------------------------------------------------------------------------
  // processFIFO
  // ---------------------------------------------------------------------------

  /** The batches holding at least one unit, in their original order. */
  function Positive(s: seq<Batch>): (r: seq<Batch>)
    ensures AllPositive(r)
    ensures |r| <= |s|
  {
    if s == [] then []
    else if s[0].units > 0 then [s[0]] + Positive(s[1..])
    else Positive(s[1..])
  }

  /** Filtering keeps the age order. */
  lemma {:induction false} PositiveSorted(s: seq<Batch>)
    requires SortedByAge(s)
    ensures SortedByAge(Positive(s))
    ensures Positive(s) != [] ==> s != [] && s[0].age >= Positive(s)[0].age
  {
    if s != [] {
      PositiveSorted(s[1..]);
      var t := Positive(s[1..]);
      if t != [] {
        assert t[0] in multiset(t) by { assert t[0] in t; }
        PositiveSubset(s[1..]);
      }
    }
  }

  lemma {:induction false} PositiveSubset(s: seq<Batch>)
    ensures forall b :: b in Positive(s) ==> b in s
  {
    if s != [] {
      PositiveSubset(s[1..]);
    }
  }

  /** On an already positive list the filter does nothing. */
  lemma {:induction false} PositiveIdentity(s: seq<Batch>)
    requires AllPositive(s)
    ensures Positive(s) == s
  {
    if s != [] {
      PositiveIdentity(s[1..]);
    }
  }

  /** Oldest-first depletion of n units from p, dropping every batch that is
      sold out and reducing at most one. */
  function Fifo(p: seq<Batch>, n: int): seq<Batch>
  {
    if p == [] then []
    else if n <= 0 then p
    else if p[0].units <= n then Fifo(p[1..], n - p[0].units)
    else [p[0].(units := p[0].units - n)] + p[1..]
  }

  /** Selling from a positive list removes min(n, its total) units and leaves
      a positive list. */
  lemma {:induction false} FifoUnits(p: seq<Batch>, n: int)
    requires AllPositive(p)
    ensures Units(Fifo(p, n)) == Units(p) - Min(Max(n, 0), Units(p))
    ensures AllPositive(Fifo(p, n))
  {
    UnitsNonNegative(p);
    if p != [] && n > 0 {
      UnitsNonNegative(p[1..]);
      if p[0].units <= n {
        FifoUnits(p[1..], n - p[0].units);
      } else {
        assert ([p[0].(units := p[0].units - n)] + p[1..])[1..] == p[1..];
      }
    }
  }

  /** The shape of an oldest-first sale: the first d batches are removed
      entirely (and add up to at most n units), the batch after them is the
      only one that may be reduced, and every batch after that is untouched. */
  lemma FifoOldestFirst(p: seq<Batch>, n: int)
    requires AllPositive(p)
    ensures |Fifo(p, n)| <= |p|
    ensures Units(p[..|p| - |Fifo(p, n)|]) <= Max(n, 0)
    ensures forall j :: 0 < j < |Fifo(p, n)| ==> Fifo(p, n)[j] == p[|p| - |Fifo(p, n)| + j]
    ensures Fifo(p, n) != [] ==>
              var d := |p| - |Fifo(p, n)|;
              Fifo(p, n)[0] == p[d].(units := Fifo(p, n)[0].units) &&
              0 < Fifo(p, n)[0].units <= p[d].units
  {
    FifoShape(p, n);
    FifoRemoved(p, n);
  }

  /** What an oldest-first sale leaves is a suffix of the list whose first
      batch alone may have been cut. */
  lemma {:induction false} FifoShape(p: seq<Batch>, n: int)
    requires AllPositive(p)
    ensures |Fifo(p, n)| <= |p|
    ensures forall j :: 0 < j < |Fifo(p, n)| ==> Fifo(p, n)[j] == p[|p| - |Fifo(p, n)| + j]
    ensures Fifo(p, n) != [] ==>
              var d := |p| - |Fifo(p, n)|;
              Fifo(p, n)[0] == p[d].(units := Fifo(p, n)[0].units) &&
              0 < Fifo(p, n)[0].units <= p[d].units
  {
    if p != [] && n > 0 && p[0].units <= n {
      FifoShape(p[1..], n - p[0].units);
    }
  }

  /** The batches an oldest-first sale removes entirely hold at most the
      units sold. */
  lemma {:induction false} FifoRemoved(p: seq<Batch>, n: int)
    requires AllPositive(p)
    ensures |Fifo(p, n)| <= |p|
    ensures Units(p[..|p| - |Fifo(p, n)|]) <= Max(n, 0)
  {
    if p == [] || n <= 0 {
      assert p[..0] == [];
    } else if p[0].units <= n {
      var q := p[1..];
      FifoRemoved(q, n - p[0].units);
      var d := |p| - |Fifo(q, n - p[0].units)|;
      assert p[..d] == [p[0]] + q[..d - 1];
      assert ([p[0]] + q[..d - 1])[1..] == q[..d - 1];
    } else {
      assert p[..0] == [];
    }
  }

  /** Depletion keeps the age order of a sorted list. */
  lemma {:induction false} FifoSorted(p: seq<Batch>, n: int)
    requires SortedByAge(p)
    ensures SortedByAge(Fifo(p, n))
  {
    if p != [] && n > 0 && p[0].units <= n {
      FifoSorted(p[1..], n - p[0].units);
    }
  }

  /** processFIFO: sells unitsToSell units from a copy of the inventory,
      oldest batches first. The caller's list is a value and stays as it was. */
  method ProcessFifo(currentInventory: seq<Batch>, unitsToSell: int) returns (newInventory: seq<Batch>)
    ensures newInventory == Fifo(Positive(SortByAge(currentInventory)), unitsToSell)
    ensures SortedByAge(newInventory) && AllPositive(newInventory)
    ensures Units(newInventory) ==
              Units(Positive(currentInventory)) - Min(Max(unitsToSell, 0), Units(Positive(currentInventory)))
    ensures unitsToSell <= 0 ==> newInventory == Positive(SortByAge(currentInventory))
  {
    var inventory := SortByAge(currentInventory);
    inventory := Positive(inventory);
    newInventory := SellOldestFirst(inventory, unitsToSell);
    PreparedFacts(currentInventory, unitsToSell);
  }

  /** processFIFO's loop over the sorted, non-empty batches: whole batches
      go while the sale lasts, the next one is cut, the rest are kept. */
  method SellOldestFirst(inventory: seq<Batch>, unitsToSell: int) returns (newInventory: seq<Batch>)
    ensures newInventory == Fifo(inventory, unitsToSell)
  {
    ghost var whole := Fifo(inventory, unitsToSell);
    var remainingToSell := unitsToSell;
    newInventory := [];
    var i := 0;
    while i < |inventory|
      invariant 0 <= i <= |inventory|
      invariant newInventory + Fifo(inventory[i..], remainingToSell) == whole
    {
      var batch := inventory[i];
      if remainingToSell <= 0 {
        KeepStep(inventory, i, newInventory, remainingToSell, whole);
        newInventory := newInventory + [batch];
      } else if batch.units <= remainingToSell {
        SellStep(inventory, i, newInventory, remainingToSell, whole);
        remainingToSell := remainingToSell - batch.units;
      } else {
        CutStep(inventory, i, newInventory, remainingToSell, whole);
        batch := batch.(units := batch.units - remainingToSell);
        remainingToSell := 0;
        newInventory := newInventory + [batch];
      }
      i := i + 1;
    }
    assert inventory[i..] == [];
  }

  /** The loop step once nothing is left to sell: the batch is kept whole. */
  lemma KeepStep(p: seq<Batch>, i: nat, kept: seq<Batch>, n: int, whole: seq<Batch>)
    requires i < |p| && n <= 0 && kept + Fifo(p[i..], n) == whole
    ensures (kept + [p[i]]) + Fifo(p[i + 1..], n) == whole
  {
    FifoCons(p, i, n);
    assert (kept + [p[i]]) + Fifo(p[i + 1..], n) == kept + ([p[i]] + Fifo(p[i + 1..], n));
  }

  /** The loop step that sells the whole batch. */
  lemma SellStep(p: seq<Batch>, i: nat, kept: seq<Batch>, n: int, whole: seq<Batch>)
    requires i < |p| && 0 < n && p[i].units <= n && kept + Fifo(p[i..], n) == whole
    ensures kept + Fifo(p[i + 1..], n - p[i].units) == whole
  {
    FifoCons(p, i, n);
  }

  /** The loop step that sells part of the batch and keeps the rest. */
  lemma CutStep(p: seq<Batch>, i: nat, kept: seq<Batch>, n: int, whole: seq<Batch>)
    requires i < |p| && 0 < n < p[i].units && kept + Fifo(p[i..], n) == whole
    ensures (kept + [p[i].(units := p[i].units - n)]) + Fifo(p[i + 1..], 0) == whole
  {
    FifoCons(p, i, n);
    var cut := p[i].(units := p[i].units - n);
    assert (kept + [cut]) + Fifo(p[i + 1..], 0) == kept + ([cut] + Fifo(p[i + 1..], 0));
  }

  /** One iteration of processFIFO's loop, stated on the specification. */
  lemma FifoCons(p: seq<Batch>, i: nat, n: int)
    requires i < |p|
    ensures n <= 0 ==> Fifo(p[i..], n) == [p[i]] + Fifo(p[i + 1..], n)
    ensures n > 0 && p[i].units <= n ==> Fifo(p[i..], n) == Fifo(p[i + 1..], n - p[i].units)
    ensures n > 0 && p[i].units > n ==>
              Fifo(p[i..], n) == [p[i].(units := p[i].units - n)] + Fifo(p[i + 1..], 0)
  {
    assert p[i..][1..] == p[i + 1..];
    if p[i + 1..] != [] {
      assert Fifo(p[i + 1..], 0) == p[i + 1..];
    }
  }

  /** What processFIFO promises about its result, proved of the specification. */
  lemma PreparedFacts(s: seq<Batch>, n: int)
    ensures SortedByAge(Fifo(Positive(SortByAge(s)), n)) && AllPositive(Fifo(Positive(SortByAge(s)), n))
    ensures Units(Fifo(Positive(SortByAge(s)), n)) == Units(Positive(s)) - Min(Max(n, 0), Units(Positive(s)))
    ensures n <= 0 ==> Fifo(Positive(SortByAge(s)), n) == Positive(SortByAge(s))
  {
    var p := Positive(SortByAge(s));
    SortByAgeFacts(s);
    PositiveSorted(SortByAge(s));
    FifoSorted(p, n);
    FifoUnits(p, n);
    SortByAgePositiveUnits(s);
  }

  // ---------------------------------------------------------------------------
  // ageInventory
  // ---------------------------------------------------------------------------

  /** The per-unit storage rate: the one given, or the default. */
  function StorageRate(costPerUnit: Option<real>): real
  {
    match costPerUnit
    case Some(c) => c
    case None => DefaultStorageRate
  }

  /** Storage for one round on every unit of the inventory. */
  function StorageCost(inventory: seq<Batch>, costPerUnit: Option<real>): real
  {
    Units(inventory) as real * StorageRate(costPerUnit)
  }

  /** One round older; flagged obsolete once older than ObsoleteAge. */
  function Aged(b: Batch): Batch
  {
    var older := b.(age := b.age + 1);
    if older.age > ObsoleteAge && !older.isObsolete then older.(isObsolete := true) else older
  }

  /** A batch aged k times. */
  function AgedTimes(b: Batch, k: nat): Batch
  {
    if k == 0 then b else Aged(AgedTimes(b, k - 1))
  }

  /** Over k rounds (k at least one) a batch's age grows by k, its units and
      cost stay, and it is obsolete exactly when it was already or has grown
      past ObsoleteAge: the flag is set once and never cleared. */
  lemma {:induction false} AgedTimesFacts(b: Batch, k: nat)
    requires k > 0
    ensures AgedTimes(b, k).age == b.age + k
    ensures AgedTimes(b, k).units == b.units && AgedTimes(b, k).unitCost == b.unitCost
    ensures AgedTimes(b, k).market == b.market
    ensures AgedTimes(b, k).isObsolete <==> b.isObsolete || b.age + k > ObsoleteAge
  {
    if k > 1 {
      AgedTimesFacts(b, k - 1);
    }
  }

  /** Every batch of an inventory one round older, in the same order. */
  function AgeAll(s: seq<Batch>): (r: seq<Batch>)
    ensures |r| == |s|
  {
    seq(|s|, k requires 0 <= k < |s| => Aged(s[k]))
  }

  /** Aging an inventory keeps each batch's market, units and cost, adds one
      round to its age, flags it obsolete exactly when it already was or is
      now older than ObsoleteAge, and so keeps the total units and the
      positivity of every batch. */
  lemma AgeAllFacts(s: seq<Batch>)
    ensures forall k :: 0 <= k < |s| ==>
              && AgeAll(s)[k].market == s[k].market
              && AgeAll(s)[k].units == s[k].units
              && AgeAll(s)[k].unitCost == s[k].unitCost
              && AgeAll(s)[k].age == s[k].age + 1
              && (AgeAll(s)[k].isObsolete <==> s[k].isObsolete || AgeAll(s)[k].age > ObsoleteAge)
    ensures Units(AgeAll(s)) == Units(s)
    ensures AllPositive(s) ==> AllPositive(AgeAll(s))
  {
    AgedUnits(s, AgeAll(s));
  }

  /** ageInventory: every batch one round older, storage charged on every unit. */
  method AgeInventory(inventory: seq<Batch>, costPerUnit: Option<real>)
    returns (updatedInventory: seq<Batch>, totalStorageCost: real)
    ensures updatedInventory == AgeAll(inventory)
    ensures totalStorageCost == Units(inventory) as real * StorageRate(costPerUnit)
  {
    var rate := StorageRate(costPerUnit);
    updatedInventory := [];
    totalStorageCost := 0.0;
    var i := 0;
    while i < |inventory|
      invariant 0 <= i <= |inventory| && |updatedInventory| == i
      invariant forall k :: 0 <= k < i ==> updatedInventory[k] == Aged(inventory[k])
      invariant totalStorageCost == Units(inventory[..i]) as real * rate
    {
      var batch := inventory[i];
      PrefixCharge(inventory, i, rate);
      totalStorageCost := totalStorageCost + batch.units as real * rate;
      batch := batch.(age := batch.age + 1);
      if batch.age > ObsoleteAge && !batch.isObsolete {
        batch := batch.(isObsolete := true);
      }
      assert batch == Aged(inventory[i]);
      updatedInventory := updatedInventory + [batch];
      i := i + 1;
    }
    assert inventory[..i] == inventory;
    assert updatedInventory == AgeAll(inventory);
  }

  /** The charge on a longer prefix adds the next batch's charge. */
  lemma PrefixCharge(s: seq<Batch>, i: nat, rate: real)
    requires i < |s|
    ensures Units(s[..i + 1]) as real * rate == Units(s[..i]) as real * rate + s[i].units as real * rate
  {
    assert s[..i + 1] == s[..i] + [s[i]];
    UnitsAppend(s[..i], [s[i]]);
    var a := Units(s[..i]) as real;
    var b := s[i].units as real;
    assert (a + b) * rate == a * rate + b * rate;
  }

  /** Aging keeps the total units (storage is charged on the same total). */
  lemma {:induction false} AgedUnits(s: seq<Batch>, t: seq<Batch>)
    requires |t| == |s|
    requires forall k :: 0 <= k < |s| ==> t[k] == Aged(s[k])
    ensures Units(t) == Units(s)
    ensures AllPositive(s) ==> AllPositive(t)
  {
    if s != [] {
      AgedUnits(s[1..], t[1..]);
    }
  }
}
