/**
 * The electoral layer: the vote table is summed per electoral section, each
 * section polygon is joined with its totals on the section number, and the
 * winning party of a section is the first party, in the order morena, pan,
 * pri, mc, whose total is the largest.
 */
module Electoral {
  import opened Frames

  /** The four parties whose vote columns are summed, in column order. */
  datatype Party = Morena | Pan | Pri | Mc

  const PARTIES: seq<Party> := [Morena, Pan, Pri, Mc]

  /** The name of a party's vote column, which is also what `GANADOR` holds. */
  function Label(p: Party): string
  {
    match p
    case Morena => "morena"
    case Pan => "pan"
    case Pri => "pri"
    case Mc => "mc"
  }

  /** The four vote counts of a row of the vote table or of a section. */
  datatype Votes = Votes(morena: int, pan: int, pri: int, mc: int)

  /** One row of the vote table: its section number and its votes. */
  datatype Ballot = Ballot(seccion: int, votes: Votes)

  /** One polygon of the electoral geometry layer. */
  datatype Section = Section(seccion: int, shape: Shape)

  /** One row of the electoral output: a polygon, its section's totals and the winner's column name. */
  datatype ElectoralRow = ElectoralRow(section: Section, totals: Votes, ganador: string)

  function Get(v: Votes, p: Party): int
  {
    match p
    case Morena => v.morena
    case Pan => v.pan
    case Pri => v.pri
    case Mc => v.mc
  }

  const NO_VOTES: Votes := Votes(0, 0, 0, 0)

  function Add(a: Votes, b: Votes): (s: Votes)
    ensures forall p :: Get(s, p) == Get(a, p) + Get(b, p)
  {
    Votes(a.morena + b.morena, a.pan + b.pan, a.pri + b.pri, a.mc + b.mc)
  }

  // ---------------------------------------------------------------------
  // Grouping the vote table by section and summing
  // ---------------------------------------------------------------------

  /** The section numbers that occur in the vote table. */
  function Seccions(bs: seq<Ballot>): set<int>
  {
    set b | b in bs :: b.seccion
  }

  /** Reference definition: the sum of the votes of every row of section `s`. */
  function SectionTotal(bs: seq<Ballot>, s: int): Votes
  {
    if bs == [] then NO_VOTES
    else
      var prev := SectionTotal(bs[..|bs| - 1], s);
      var last := bs[|bs| - 1];
      if last.seccion == s then Add(prev, last.votes) else prev
  }

  /**
   * The grouped sums, accumulated row by row: a section seen for the first
   * time starts at its row's votes, a known one adds them.
   */
  function Totals(bs: seq<Ballot>): map<int, Votes>
  {
    if bs == [] then map[]
    else
      var t := Totals(bs[..|bs| - 1]);
      var last := bs[|bs| - 1];
      t[last.seccion := if last.seccion in t then Add(t[last.seccion], last.votes) else last.votes]
  }

  /**
   * The grouped table has one entry per section that occurs in the vote
   * table, and each holds the sum of that section's rows.
   */
  lemma {:induction false} TotalsAreSectionSums(bs: seq<Ballot>)
    ensures Totals(bs).Keys == Seccions(bs)
    ensures forall s :: s in Totals(bs) ==> Totals(bs)[s] == SectionTotal(bs, s)
  {
    if bs != [] {
      var init := bs[..|bs| - 1];
      var last := bs[|bs| - 1];
      TotalsAreSectionSums(init);
      assert bs == init + [last];
      assert Seccions(bs) == Seccions(init) + {last.seccion};
      forall s | s in Totals(bs) ensures Totals(bs)[s] == SectionTotal(bs, s) {
        if s == last.seccion && s !in Totals(init) {
          SectionTotalAbsent(init, s);
        }
      }
    }
  }

  /** A section with no row sums to no votes. */
  lemma {:induction false} SectionTotalAbsent(bs: seq<Ballot>, s: int)
    requires s !in Seccions(bs)
    ensures SectionTotal(bs, s) == NO_VOTES
  {
    if bs != [] {
      var init := bs[..|bs| - 1];
      assert Seccions(init) <= Seccions(bs) by {
        forall b | b in init ensures b in bs { }
      }
      assert bs[|bs| - 1] in bs;
      SectionTotalAbsent(init, s);
    }
  }

  // ---------------------------------------------------------------------
  // The first party with the largest total
  // ---------------------------------------------------------------------

  /**
   * The position of the first largest value: scanning left to right, a
   * value replaces the best so far only when it is strictly larger.
   */
  function FirstMax(vals: seq<int>): (k: nat)
    requires vals != []
    ensures k < |vals|
    ensures forall i :: 0 <= i < |vals| ==> vals[i] <= vals[k]
    ensures forall i :: 0 <= i < k ==> vals[i] < vals[k]
  {
    if |vals| == 1 then 0
    else
      var best := FirstMax(vals[..|vals| - 1]);
      if vals[|vals| - 1] > vals[best] then |vals| - 1 else best
  }

  /** A position is the first largest value exactly when it is `FirstMax`. */
  lemma FirstMaxUnique(vals: seq<int>, k: nat)
    requires k < |vals|
    requires forall i :: 0 <= i < |vals| ==> vals[i] <= vals[k]
    requires forall i :: 0 <= i < k ==> vals[i] < vals[k]
    ensures k == FirstMax(vals)
  {
    var m := FirstMax(vals);
    assert vals[m] <= vals[k] && vals[k] <= vals[m];
  }

  /** A section's totals in column order. */
  function VoteList(v: Votes): (vals: seq<int>)
    ensures |vals| == |PARTIES|
    ensures forall i :: 0 <= i < |PARTIES| ==> vals[i] == Get(v, PARTIES[i])
  {
    [v.morena, v.pan, v.pri, v.mc]
  }

  /** `GANADOR`: the party of the first largest column among morena, pan, pri, mc. */
  function Winner(v: Votes): Party
  {
    PARTIES[FirstMax(VoteList(v))]
  }

  /** The position of a party in column order. */
  function Rank(p: Party): (i: nat)
    ensures i < |PARTIES| && PARTIES[i] == p
  {
    match p
    case Morena => 0
    case Pan => 1
    case Pri => 2
    case Mc => 3
  }

  /**
   * The winner has a largest total, and every party before it in column
   * order has strictly fewer votes, so a tie goes to the earliest party.
   */
  lemma WinnerIsFirstMaximum(v: Votes)
    ensures forall p :: Get(v, p) <= Get(v, Winner(v))
    ensures forall p :: Rank(p) < Rank(Winner(v)) ==> Get(v, p) < Get(v, Winner(v))
  {
    var vals := VoteList(v);
    var k := FirstMax(vals);
    assert Rank(Winner(v)) == k;
    forall p ensures Get(v, p) <= Get(v, Winner(v)) {
      assert vals[Rank(p)] <= vals[k];
    }
  }

  /** The winner is the only party with those two properties. */
  lemma WinnerUnique(v: Votes, w: Party)
    requires forall p :: Get(v, p) <= Get(v, w)
    requires forall p :: Rank(p) < Rank(w) ==> Get(v, p) < Get(v, w)
    ensures w == Winner(v)
  {
    var vals := VoteList(v);
    forall i | 0 <= i < |vals| ensures vals[i] <= vals[Rank(w)] {
      assert vals[i] == Get(v, PARTIES[i]) && Rank(PARTIES[i]) == i;
    }
    forall i | 0 <= i < Rank(w) ensures vals[i] < vals[Rank(w)] {
      assert Rank(PARTIES[i]) == i;
    }
    FirstMaxUnique(vals, Rank(w));
  }

  /** A clear majority, a tie at the top, and a tie between later parties. */
  lemma WinnerExamples()
    ensures Winner(Votes(120, 80, 95, 10)) == Morena
    ensures Winner(Votes(50, 50, 0, 0)) == Morena
    ensures Winner(Votes(10, 30, 30, 5)) == Pan
    ensures Winner(Votes(0, 0, 0, 7)) == Mc
  {
    WinnerUnique(Votes(120, 80, 95, 10), Morena);
    WinnerUnique(Votes(50, 50, 0, 0), Morena);
    WinnerUnique(Votes(10, 30, 30, 5), Pan);
    WinnerUnique(Votes(0, 0, 0, 7), Mc);
  }

  // ---------------------------------------------------------------------
  // The merge on the section number
  // ---------------------------------------------------------------------

  /** The polygons that have totals, in layer order, each with its totals and winner. */
  function JoinSections(shp: seq<Section>, t: map<int, Votes>): seq<ElectoralRow>
  {
    if shp == [] then []
    else
      var rest := JoinSections(shp[1..], t);
      var s := shp[0];
      if s.seccion in t then [ElectoralRow(s, t[s.seccion], Label(Winner(t[s.seccion])))] + rest else rest
  }

  /** The electoral output for a geometry layer and a vote table. */
  function ElectoralLayer(shp: seq<Section>, bs: seq<Ballot>): seq<ElectoralRow>
  {
    JoinSections(shp, Totals(bs))
  }

  /**
   * The merge keeps exactly the polygons whose section has totals, and
   * attaches to each those totals and their winner.
   */
  lemma {:induction false} JoinSectionsRows(shp: seq<Section>, t: map<int, Votes>)
    ensures |JoinSections(shp, t)| <= |shp|
    ensures forall x :: x in JoinSections(shp, t) ==>
              x.section in shp && x.section.seccion in t &&
              x.totals == t[x.section.seccion] && x.ganador == Label(Winner(x.totals))
    ensures forall s :: s in shp && s.seccion in t ==>
              ElectoralRow(s, t[s.seccion], Label(Winner(t[s.seccion]))) in JoinSections(shp, t)
  {
    if shp != [] {
      JoinSectionsRows(shp[1..], t);
      forall s | s in shp && s.seccion in t
        ensures ElectoralRow(s, t[s.seccion], Label(Winner(t[s.seccion]))) in JoinSections(shp, t)
      {
        if s != shp[0] {
          assert s in shp[1..];
        }
      }
    }
  }

  /** The polygons of the electoral output, in row order. */
  function SectionsOf(rows: seq<ElectoralRow>): (ss: seq<Section>)
    ensures |ss| == |rows|
    ensures forall i :: 0 <= i < |rows| ==> ss[i] == rows[i].section
  {
    seq(|rows|, i requires 0 <= i < |rows| => rows[i].section)
  }

  /**
   * The merge repeats no polygon and drops none with totals: a polygon
   * occurs in the output as often as in the layer when its section has
   * totals, and not at all otherwise.
   */
  lemma {:induction false} JoinSectionsMultiplicity(shp: seq<Section>, t: map<int, Votes>)
    ensures forall s :: multiset(SectionsOf(JoinSections(shp, t)))[s] ==
                        if s.seccion in t then multiset(shp)[s] else 0
  {
    if shp != [] {
      JoinSectionsMultiplicity(shp[1..], t);
      JoinSectionsStep(shp, t);
      CountsStep(shp[0], t.Keys, multiset(SectionsOf(JoinSections(shp, t))),
                 multiset(SectionsOf(JoinSections(shp[1..], t))), multiset(shp), multiset(shp[1..]));
    }
  }

  /** One step of the merge, counted in polygons. */
  lemma JoinSectionsStep(shp: seq<Section>, t: map<int, Votes>)
    requires shp != []
    ensures multiset(SectionsOf(JoinSections(shp, t))) ==
            (if shp[0].seccion in t then multiset{shp[0]} else multiset{}) + multiset(SectionsOf(JoinSections(shp[1..], t)))
    ensures multiset(shp) == multiset{shp[0]} + multiset(shp[1..])
  {
    SectionsOfStep(shp, t);
    assert shp == [shp[0]] + shp[1..];
  }

  /** One step of the merge, as the sequence of its polygons. */
  lemma SectionsOfStep(shp: seq<Section>, t: map<int, Votes>)
    requires shp != []
    ensures SectionsOf(JoinSections(shp, t)) ==
            (if shp[0].seccion in t then [shp[0]] else []) + SectionsOf(JoinSections(shp[1..], t))
  {
    if shp[0].seccion in t {
      var j := JoinSections(shp, t);
      assert j[1..] == JoinSections(shp[1..], t);
      assert j[0].section == shp[0];
    }
  }

  /** Adding one polygon in front keeps the counts of the merge. */
  lemma CountsStep(head: Section, keys: set<int>, out: multiset<Section>, later: multiset<Section>,
                   whole: multiset<Section>, tail: multiset<Section>)
    requires out == (if head.seccion in keys then multiset{head} else multiset{}) + later
    requires whole == multiset{head} + tail
    requires forall s :: later[s] == if s.seccion in keys then tail[s] else 0
    ensures forall s :: out[s] == if s.seccion in keys then whole[s] else 0
  {
  }

  /**
   * Every output row is a polygon of the layer whose section occurs in the
   * vote table; it carries the sum of that section's rows and the first
   * party with the most votes. Every polygon whose section has votes is
   * in the output as often as in the layer, and no other polygon is.
   */
  lemma ElectoralLayerRows(shp: seq<Section>, bs: seq<Ballot>)
    ensures |ElectoralLayer(shp, bs)| <= |shp|
    ensures forall x :: x in ElectoralLayer(shp, bs) ==>
              && x.section in shp && x.section.seccion in Seccions(bs)
              && x.totals == SectionTotal(bs, x.section.seccion)
              && x.ganador == Label(Winner(x.totals))
    ensures forall s :: s in shp && s.seccion in Seccions(bs) ==>
              ElectoralRow(s, SectionTotal(bs, s.seccion), Label(Winner(SectionTotal(bs, s.seccion)))) in ElectoralLayer(shp, bs)
    ensures forall s :: multiset(SectionsOf(ElectoralLayer(shp, bs)))[s] ==
                        if s.seccion in Seccions(bs) then multiset(shp)[s] else 0
  {
    TotalsAreSectionSums(bs);
    JoinSectionsRows(shp, Totals(bs));
    JoinSectionsMultiplicity(shp, Totals(bs));
  }
}
