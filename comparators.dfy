/** The orderings of scenarios: by name (ComparaNome), by number of bets, more
    first (ComparaApostas), and the configurable ComparaCenario. Every ordering
    breaks ties by ascending id. */
module Comparators {
  import opened Wrappers
  import opened Scenarios

  /** What a comparator reads of a scenario: `getId`, `getNome` and `totalApostas`. */
  datatype Entry = Entry(id: int, nome: string, apostas: int)

  function EntryOf(s: Scenario): Entry
    reads s, s.ledger
    requires s.Valid()
  {
    Entry(s.id, s.descricao, s.Count())
  }

  /** The analogue of Java's `String.compareTo` over characters taken as
      Unicode code points: the difference of the first differing characters,
      or of the lengths when one string is a prefix of the other. */
  function CompareStrings(a: string, b: string): (r: int)
    ensures |a| <= |b| && a == b[..|a|] ==> r == |a| - |b|
    ensures |b| <= |a| && b == a[..|b|] ==> r == |a| - |b|
    decreases |a|
  {
    if a == [] || b == [] then |a| - |b|
    else if a[0] != b[0] then a[0] as int - b[0] as int
    else
      assert |a| <= |b| && a == b[..|a|] ==> a[1..] == b[1..][..|a| - 1];
      assert |b| <= |a| && b == a[..|b|] ==> b[1..] == a[1..][..|b| - 1];
      CompareStrings(a[1..], b[1..])
  }

  /** Lexicographic order: `a` is a proper prefix of `b`, or at the first
      position where they differ `a` has the smaller character. */
  predicate LexLess(a: string, b: string) {
    || (|a| < |b| && a == b[..|a|])
    || exists k :: 0 <= k < |a| && k < |b| && a[..k] == b[..k] && a[k] < b[k]
  }

  /** Shifting by a common first character keeps the lexicographic order. */
  lemma LexLessTail(a: string, b: string)
    requires a != [] && b != [] && a[0] == b[0]
    ensures LexLess(a, b) <==> LexLess(a[1..], b[1..])
  {
    var a', b' := a[1..], b[1..];
    if |a| < |b| && a == b[..|a|] {
      assert a' == b'[..|a'|];
    }
    if |a'| < |b'| && a' == b'[..|a'|] {
      assert a == [a[0]] + a' && b[..|a|] == [b[0]] + b'[..|a'|];
    }
    if k :| 0 <= k < |a| && k < |b| && a[..k] == b[..k] && a[k] < b[k] {
      assert k > 0;
      assert a'[..k - 1] == a[1..k] == b[1..k] == b'[..k - 1];
      assert a'[k - 1] < b'[k - 1];
    }
    if k :| 0 <= k < |a'| && k < |b'| && a'[..k] == b'[..k] && a'[k] < b'[k] {
      assert a[..k + 1] == [a[0]] + a'[..k] && b[..k + 1] == [b[0]] + b'[..k];
      assert a[k + 1] < b[k + 1];
    }
  }

  /** `compareTo` is negative exactly when the first string comes first
      lexicographically. */
  lemma {:induction false} CompareStringsSign(a: string, b: string)
    ensures CompareStrings(a, b) < 0 <==> LexLess(a, b)
    decreases |a|
  {
    if a == [] {
      assert b != [] ==> a == b[..0];
    } else if b == [] {
    } else if a[0] != b[0] {
      if a[0] < b[0] {
        assert a[..0] == b[..0];
      }
    } else {
      CompareStringsSign(a[1..], b[1..]);
      LexLessTail(a, b);
    }
  }

  /** `compareTo` is zero exactly on equal strings. */
  lemma {:induction false} CompareStringsZero(a: string, b: string)
    ensures CompareStrings(a, b) == 0 <==> a == b
    decreases |a|
  {
    if a != [] && b != [] && a[0] == b[0] {
      CompareStringsZero(a[1..], b[1..]);
      assert a == [a[0]] + a[1..] && b == [b[0]] + b[1..];
    }
  }

  /** Swapping the strings negates `compareTo`. */
  lemma {:induction false} CompareStringsAntisymmetric(a: string, b: string)
    ensures CompareStrings(a, b) == -CompareStrings(b, a)
    decreases |a|
  {
    if a != [] && b != [] && a[0] == b[0] {
      CompareStringsAntisymmetric(a[1..], b[1..]);
    }
  }

  /** `compareTo` orders strings transitively. */
  lemma {:induction false} CompareStringsTransitive(a: string, b: string, c: string)
    requires CompareStrings(a, b) < 0 && CompareStrings(b, c) < 0
    ensures CompareStrings(a, c) < 0
    decreases |a|
  {
    if a != [] && b != [] && c != [] && a[0] == b[0] == c[0] {
      CompareStringsTransitive(a[1..], b[1..], c[1..]);
    }
  }

  /** ComparaNome: by name, then by ascending id. `x` comes first when its
      name is lexicographically smaller, or the names agree and its id is
      smaller. */
  function ByName(x: Entry, y: Entry): (r: int)
    ensures r < 0 <==> LexLess(x.nome, y.nome) || (x.nome == y.nome && x.id < y.id)
    ensures r == 0 <==> x.nome == y.nome && x.id == y.id
    ensures x.nome == y.nome ==> r == x.id - y.id
  {
    CompareStringsSign(x.nome, y.nome);
    CompareStringsZero(x.nome, y.nome);
    var c := CompareStrings(x.nome, y.nome);
    if c == 0 then x.id - y.id else c
  }

  /** ComparaApostas: more bets first, then ascending id. `x` comes first when
      it has more bets, or as many and a smaller id. */
  function ByCount(x: Entry, y: Entry): (r: int)
    ensures r < 0 <==> x.apostas > y.apostas || (x.apostas == y.apostas && x.id < y.id)
    ensures r == 0 <==> x.apostas == y.apostas && x.id == y.id
  {
    var c := y.apostas - x.apostas;
    if c == 0 then x.id - y.id else c
  }

  /** The "cadastro" order: registration order, that is ascending id. */
  function ById(x: Entry, y: Entry): (r: int)
    ensures r < 0 <==> x.id < y.id
    ensures r == 0 <==> x.id == y.id
  {
    x.id - y.id
  }

  /** Swapping the scenarios negates every comparison. */
  lemma ComparisonsAntisymmetric(x: Entry, y: Entry)
    ensures ByName(x, y) == -ByName(y, x)
    ensures ByCount(x, y) == -ByCount(y, x)
    ensures ById(x, y) == -ById(y, x)
  {
    CompareStringsAntisymmetric(x.nome, y.nome);
  }

  /** Among scenarios with distinct ids no two compare equal, so each ordering
      is total. */
  lemma DistinctIdsNeverTie(x: Entry, y: Entry)
    requires x.id != y.id
    ensures ByName(x, y) != 0 && ByCount(x, y) != 0 && ById(x, y) != 0
  {
  }

  /** Ordering by name is transitive. */
  lemma ByNameTransitive(x: Entry, y: Entry, z: Entry)
    requires ByName(x, y) < 0 && ByName(y, z) < 0
    ensures ByName(x, z) < 0
  {
    CompareStringsZero(x.nome, y.nome);
    CompareStringsZero(y.nome, z.nome);
    CompareStringsZero(x.nome, z.nome);
    if x.nome == y.nome {
    } else if y.nome == z.nome {
    } else {
      CompareStringsTransitive(x.nome, y.nome, z.nome);
    }
  }

  /** Ordering by count is transitive. */
  lemma ByCountTransitive(x: Entry, y: Entry, z: Entry)
    requires ByCount(x, y) < 0 && ByCount(y, z) < 0
    ensures ByCount(x, z) < 0
  {
  }

  /** The orders ComparaCenario accepts. */
  datatype Order = Name | Count | Registration

  /** `setOrdem`'s check: "nome", "apostas" and "cadastro" and nothing else. */
  function ParseOrder(s: string): (r: Result<Order>)
    ensures r.Ok? <==> s == "nome" || s == "apostas" || s == "cadastro"
    ensures r.Err? ==> r.error == InvalidField
    ensures r == Ok(Name) <==> s == "nome"
    ensures r == Ok(Count) <==> s == "apostas"
    ensures r == Ok(Registration) <==> s == "cadastro"
  {
    if s == "nome" then Ok(Name)
    else if s == "apostas" then Ok(Count)
    else if s == "cadastro" then Ok(Registration)
    else Err(InvalidField)
  }

  /** ComparaCenario: compares by the order last set; before any order is set
      there is nothing to compare by. */
  class ScenarioComparator {
    var ordem: Option<Order>

    constructor ()
      ensures ordem == None
    {
      ordem := None;
    }

    /** `setOrdem`: an unknown order is rejected and the previous one kept. */
    method SetOrdem(s: string) returns (r: Outcome)
      modifies this
      ensures r.Pass? <==> ParseOrder(s).Ok?
      ensures r.Pass? ==> ordem == Some(ParseOrder(s).value)
      ensures r.Fail? ==> r.error == InvalidField && ordem == old(ordem)
    {
      var parsed := ParseOrder(s);
      if parsed.Err? {
        return Fail(parsed.error);
      }
      ordem := Some(parsed.value);
      r := Pass;
    }

    /** `compare`: the primary key of the order (none for "cadastro"), then the id.
        It agrees with the ordering the order names. */
    function Compare(x: Entry, y: Entry): (r: int)
      reads this
      requires ordem.Some?
      ensures ordem == Some(Name) ==> r == ByName(x, y)
      ensures ordem == Some(Count) ==> r == ByCount(x, y)
      ensures ordem == Some(Registration) ==> r == ById(x, y)
    {
      var primary :=
        match ordem.value
        case Name => CompareStrings(x.nome, y.nome)
        case Count => y.apostas - x.apostas
        case Registration => 0;
      if primary == 0 then x.id - y.id else primary
    }

    /** Whatever the order, swapping the scenarios negates the comparison and
        only equal ids compare equal. */
    lemma CompareProperties(x: Entry, y: Entry)
      requires ordem.Some?
      ensures Compare(x, y) == -Compare(y, x)
      ensures Compare(x, y) == 0 ==> x.id == y.id
    {
      ComparisonsAntisymmetric(x, y);
      if x.id != y.id {
        DistinctIdsNeverTie(x, y);
      }
    }
  }
}
