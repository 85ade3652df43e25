/**
 * `monopolyProperties`: the twenty-eight purchasable squares the application loads into
 * the ledger when it starts. The source lists them in one array, grouped by colour; the
 * model keeps its order and writes each group as its own constant.
 */
module Catalog {
  import opened Wrappers
  import opened Text
  import opened GameTypes
  import opened GameBoard

  /** The brown squares. */
  const Brown: seq<Property> := [
    Property(1, "Mediterranean Avenue", 60, 2, None, 1, Some("cards")),
    Property(3, "Baltic Avenue", 60, 4, None, 3, Some("cards"))
  ]

  /** The light blue squares. */
  const LightBlue: seq<Property> := [
    Property(6, "Oriental Avenue", 100, 6, None, 6, Some("cards")),
    Property(8, "Vermont Avenue", 100, 6, None, 8, Some("cards")),
    Property(9, "Connecticut Avenue", 120, 8, None, 9, Some("cards"))
  ]

  /** The pink squares. */
  const Pink: seq<Property> := [
    Property(11, "St. Charles Place", 140, 10, None, 11, Some("cards")),
    Property(13, "States Avenue", 140, 10, None, 13, Some("cards")),
    Property(14, "Virginia Avenue", 160, 12, None, 14, Some("cards"))
  ]

  /** The orange squares. */
  const Orange: seq<Property> := [
    Property(16, "St. James Place", 180, 14, None, 16, Some("cards")),
    Property(18, "Tennessee Avenue", 180, 14, None, 18, Some("cards")),
    Property(19, "New York Avenue", 200, 16, None, 19, Some("cards"))
  ]

  /** The red squares. */
  const Red: seq<Property> := [
    Property(21, "Kentucky Avenue", 220, 18, None, 21, Some("cards")),
    Property(23, "Indiana Avenue", 220, 18, None, 23, Some("cards")),
    Property(24, "Illinois Avenue", 240, 20, None, 24, Some("cards"))
  ]

  /** The yellow squares. */
  const Yellow: seq<Property> := [
    Property(26, "Atlantic Avenue", 260, 22, None, 26, Some("cards")),
    Property(27, "Ventnor Avenue", 260, 22, None, 27, Some("cards")),
    Property(29, "Marvin Gardens", 280, 24, None, 29, Some("cards"))
  ]

  /** The green squares. */
  const Green: seq<Property> := [
    Property(31, "Pacific Avenue", 300, 26, None, 31, Some("cards")),
    Property(32, "North Carolina Avenue", 300, 26, None, 32, Some("cards")),
    Property(34, "Pennsylvania Avenue", 320, 28, None, 34, Some("cards"))
  ]

  /** The dark blue squares. */
  const DarkBlue: seq<Property> := [
    Property(37, "Park Place", 350, 35, None, 37, Some("cards")),
    Property(39, "Boardwalk", 400, 50, None, 39, Some("cards"))
  ]

  /** The railroad squares. */
  const Railroads: seq<Property> := [
    Property(5, "Reading Railroad", 200, 25, None, 5, Some("spcl_cards")),
    Property(15, "Pennsylvania Railroad", 200, 25, None, 15, Some("spcl_cards")),
    Property(25, "B&O Railroad", 200, 25, None, 25, Some("spcl_cards")),
    Property(35, "Short Line Railroad", 200, 25, None, 35, Some("spcl_cards"))
  ]

  /** The utility squares. */
  const Utilities: seq<Property> := [
    Property(12, "Electric Company", 150, 0, None, 12, Some("spcl_cards")),
    Property(28, "Water Works", 150, 0, None, 28, Some("spcl_cards"))
  ]

  const Properties: seq<Property> :=
    Brown + LightBlue + Pink + Orange + Red +
    Yellow + Green + DarkBlue + Railroads + Utilities

  // ---------------------------------------------------------------- proof tables
  // Three lookup tables let each colour group be checked on its own; every table entry
  // that a lemma below relies on is checked against the catalog.

  /** The square of entry `i`, in catalog order. */
  function SquareOf(i: int): int {
    match i
    case 0 => 1
    case 1 => 3
    case 2 => 6
    case 3 => 8
    case 4 => 9
    case 5 => 11
    case 6 => 13
    case 7 => 14
    case 8 => 16
    case 9 => 18
    case 10 => 19
    case 11 => 21
    case 12 => 23
    case 13 => 24
    case 14 => 26
    case 15 => 27
    case 16 => 29
    case 17 => 31
    case 18 => 32
    case 19 => 34
    case 20 => 37
    case 21 => 39
    case 22 => 5
    case 23 => 15
    case 24 => 25
    case 25 => 35
    case 26 => 12
    case 27 => 28
    case _ => -1
  }

  /** The entry on square `x`, or -1 where there is none. */
  function EntryOnSquare(x: int): int {
    match x
    case 1 => 0
    case 3 => 1
    case 6 => 2
    case 8 => 3
    case 9 => 4
    case 11 => 5
    case 13 => 6
    case 14 => 7
    case 16 => 8
    case 18 => 9
    case 19 => 10
    case 21 => 11
    case 23 => 12
    case 24 => 13
    case 26 => 14
    case 27 => 15
    case 29 => 16
    case 31 => 17
    case 32 => 18
    case 34 => 19
    case 37 => 20
    case 39 => 21
    case 5 => 22
    case 15 => 23
    case 25 => 24
    case 35 => 25
    case 12 => 26
    case 28 => 27
    case _ => -1
  }

  /** A character's code after lower-casing. */
  function Folded(c: char): int {
    if 'A' <= c <= 'Z' then c as int + 32 else c as int
  }

  /**
   * A name's length and its first three characters after lower-casing, packed into one
   * number; two names with the same lower case have the same signature.
   */
  function Signature(name: string): int {
    if |name| < 3 then 0
    else |name| * 1000000 + Folded(name[0]) * 10000 + Folded(name[1]) * 100 + Folded(name[2])
  }

  lemma SignatureOfLower(a: string, b: string)
    requires Lower(a) == Lower(b)
    ensures Signature(a) == Signature(b)
  {
    if |a| >= 3 {
      assert Lower(a)[0] == Lower(b)[0] && Lower(a)[1] == Lower(b)[1] && Lower(a)[2] == Lower(b)[2];
    }
  }

  /** The entry whose name has the given signature, or -1. */
  function EntryNamed(signature: int): int {
    match signature
    case 21100200 => 0
    case 13989808 => 1
    case 16121505 => 2
    case 15190214 => 3
    case 19001210 => 4
    case 18161646 => 5
    case 14161697 => 6
    case 16190614 => 7
    case 16161646 => 8
    case 17170210 => 9
    case 16110219 => 10
    case 16080210 => 11
    case 15061100 => 12
    case 16060908 => 13
    case 15981708 => 14
    case 15190210 => 15
    case 15099814 => 16
    case 15129799 => 17
    case 22111214 => 18
    case 20130210 => 19
    case 11129814 => 20
    case 9991197 => 21
    case 17150197 => 22
    case 22130210 => 23
    case 12983911 => 24
    case 20160511 => 25
    case 17020901 => 26
    case 12199816 => 27
    case _ => -1
  }

  /**
   * What is checked of the entry at index `i`: its id is its square, it is unowned,
   * priced and coloured, its square is in 1..39, and the tables agree with it.
   */
  predicate Checked(p: Property, i: int) {
    && p.id == p.position && p.owner == None && p.price > 0 && p.color.Some?
    && 1 <= p.position <= 39 && p.position == SquareOf(i)
    && EntryNamed(Signature(p.name)) == i
  }

  lemma BrownChecked()
    ensures |Brown| == 2 && forall i :: 0 <= i < |Brown| ==> Checked(Brown[i], 0 + i)
  {
  }

  lemma LightBlueChecked()
    ensures |LightBlue| == 3 && forall i :: 0 <= i < |LightBlue| ==> Checked(LightBlue[i], 2 + i)
  {
  }

  lemma PinkChecked()
    ensures |Pink| == 3 && forall i :: 0 <= i < |Pink| ==> Checked(Pink[i], 5 + i)
  {
  }

  lemma OrangeChecked()
    ensures |Orange| == 3 && forall i :: 0 <= i < |Orange| ==> Checked(Orange[i], 8 + i)
  {
  }

  lemma RedChecked()
    ensures |Red| == 3 && forall i :: 0 <= i < |Red| ==> Checked(Red[i], 11 + i)
  {
  }

  lemma YellowChecked()
    ensures |Yellow| == 3 && forall i :: 0 <= i < |Yellow| ==> Checked(Yellow[i], 14 + i)
  {
  }

  lemma GreenChecked()
    ensures |Green| == 3 && forall i :: 0 <= i < |Green| ==> Checked(Green[i], 17 + i)
  {
  }

  lemma DarkBlueChecked()
    ensures |DarkBlue| == 2 && forall i :: 0 <= i < |DarkBlue| ==> Checked(DarkBlue[i], 20 + i)
  {
  }

  lemma RailroadsChecked()
    ensures |Railroads| == 4 && forall i :: 0 <= i < |Railroads| ==> Checked(Railroads[i], 22 + i)
  {
  }

  lemma UtilitiesChecked()
    ensures |Utilities| == 2 && forall i :: 0 <= i < |Utilities| ==> Checked(Utilities[i], 26 + i)
  {
  }

  lemma IndexedConcat(a: seq<Property>, b: seq<Property>, offset: int, P: (Property, int) -> bool)
    requires forall i :: 0 <= i < |a| ==> P(a[i], offset + i)
    requires forall i :: 0 <= i < |b| ==> P(b[i], offset + |a| + i)
    ensures forall i :: 0 <= i < |a + b| ==> P((a + b)[i], offset + i)
  {
  }

  /** Ten groups that each satisfy `P` at their offsets make a sequence satisfying it throughout. */
  lemma IndexedGroups(
      g0: seq<Property>, g1: seq<Property>, g2: seq<Property>, g3: seq<Property>, g4: seq<Property>,
      g5: seq<Property>, g6: seq<Property>, g7: seq<Property>, g8: seq<Property>, g9: seq<Property>,
      P: (Property, int) -> bool)
    requires |g0| == 2 && forall i :: 0 <= i < |g0| ==> P(g0[i], 0 + i)
    requires |g1| == 3 && forall i :: 0 <= i < |g1| ==> P(g1[i], 2 + i)
    requires |g2| == 3 && forall i :: 0 <= i < |g2| ==> P(g2[i], 5 + i)
    requires |g3| == 3 && forall i :: 0 <= i < |g3| ==> P(g3[i], 8 + i)
    requires |g4| == 3 && forall i :: 0 <= i < |g4| ==> P(g4[i], 11 + i)
    requires |g5| == 3 && forall i :: 0 <= i < |g5| ==> P(g5[i], 14 + i)
    requires |g6| == 3 && forall i :: 0 <= i < |g6| ==> P(g6[i], 17 + i)
    requires |g7| == 2 && forall i :: 0 <= i < |g7| ==> P(g7[i], 20 + i)
    requires |g8| == 4 && forall i :: 0 <= i < |g8| ==> P(g8[i], 22 + i)
    requires |g9| == 2 && forall i :: 0 <= i < |g9| ==> P(g9[i], 26 + i)
    ensures forall i :: 0 <= i < |g0 + g1 + g2 + g3 + g4 + g5 + g6 + g7 + g8 + g9| ==> P((g0 + g1 + g2 + g3 + g4 + g5 + g6 + g7 + g8 + g9)[i], i)
  {
    IndexedConcat(g0, g1, 0, P);
    IndexedConcat(g0 + g1, g2, 0, P);
    IndexedConcat(g0 + g1 + g2, g3, 0, P);
    IndexedConcat(g0 + g1 + g2 + g3, g4, 0, P);
    IndexedConcat(g0 + g1 + g2 + g3 + g4, g5, 0, P);
    IndexedConcat(g0 + g1 + g2 + g3 + g4 + g5, g6, 0, P);
    IndexedConcat(g0 + g1 + g2 + g3 + g4 + g5 + g6, g7, 0, P);
    IndexedConcat(g0 + g1 + g2 + g3 + g4 + g5 + g6 + g7, g8, 0, P);
    IndexedConcat(g0 + g1 + g2 + g3 + g4 + g5 + g6 + g7 + g8, g9, 0, P);
  }

  /** Every entry passes the check. */
  lemma AllChecked()
    ensures |Properties| == 28
    ensures forall i :: 0 <= i < |Properties| ==> Checked(Properties[i], i)
  {
    BrownChecked();
    LightBlueChecked();
    PinkChecked();
    OrangeChecked();
    RedChecked();
    YellowChecked();
    GreenChecked();
    DarkBlueChecked();
    RailroadsChecked();
    UtilitiesChecked();
    IndexedGroups(Brown, LightBlue, Pink, Orange, Red, Yellow, Green, DarkBlue, Railroads, Utilities, Checked);
  }

  /** The square table and its inverse agree, and mark exactly the special squares with -1. */
  lemma SquareTables()
    ensures forall i :: 0 <= i < 28 ==> EntryOnSquare(SquareOf(i)) == i
    ensures forall x :: 0 <= x < Squares ==>
      && (EntryOnSquare(x) == -1 <==> x in {0, 2, 4, 7, 10, 17, 20, 22, 30, 33, 36, 38})
      && (EntryOnSquare(x) != -1 ==> 0 <= EntryOnSquare(x) < 28 && SquareOf(EntryOnSquare(x)) == x)
  {
  }

  // ---------------------------------------------------------------- catalog facts

  /** Every entry's id is its square; every entry is unowned, priced and on a square in 1..39. */
  lemma CatalogEntries()
    ensures |Properties| == 28
    ensures forall i :: 0 <= i < |Properties| ==>
      && Properties[i].id == Properties[i].position
      && Properties[i].owner == None
      && Properties[i].price > 0
      && 1 <= Properties[i].position <= 39
  {
    AllChecked();
  }

  /** No two entries share a square. */
  lemma PositionsDistinct()
    ensures forall i, j :: 0 <= i < j < |Properties| ==> Properties[i].position != Properties[j].position
  {
    AllChecked();
    SquareTables();
  }

  /** No two entries have names that differ only in letter case. */
  lemma NamesDistinct()
    ensures forall i, j :: 0 <= i < j < |Properties| ==>
      Lower(Properties[i].name) != Lower(Properties[j].name)
  {
    AllChecked();
    forall i, j | 0 <= i < j < |Properties|
      ensures Lower(Properties[i].name) != Lower(Properties[j].name)
    {
      if Lower(Properties[i].name) == Lower(Properties[j].name) {
        SignatureOfLower(Properties[i].name, Properties[j].name);
      }
    }
  }

  /** So the case-insensitive lookup of an entry's own name finds that entry. */
  lemma LookupByName(i: nat)
    requires i < |Properties|
    ensures PropertyIndex(Properties, ByName(Properties[i].name)) == Some(i)
  {
    NamesDistinct();
    var key := ByName(Properties[i].name);
    assert KeyMatches(Properties[i], key);
    assert forall j :: 0 <= j < |Properties| && j != i ==> !KeyMatches(Properties[j], key);
  }

  /**
   * Entries 5 and 8 are "St. Charles Place" on square 11 and "St. James Place" on
   * square 16; each has a dot, which no name group can capture, and an id no other
   * entry has.
   */
  lemma DottedEntries()
    ensures |Properties| == 28
    ensures Properties[5].id == 11 && Properties[8].id == 16
    ensures Properties[5].name[2] == '.' && Properties[8].name[2] == '.' && !IsNameChar('.')
    ensures forall j :: 0 <= j < |Properties| && j != 5 ==> Properties[j].id != 11
    ensures forall j :: 0 <= j < |Properties| && j != 8 ==> Properties[j].id != 16
  {
    CatalogEntries();
    PositionsDistinct();
    assert Properties[5] == Pink[0] && Properties[8] == Orange[0];
  }

  /** The lookup by id finds the entry on the square with that number. */
  lemma LookupById(id: nat)
    ensures PropertyIndex(Properties, ById(id)) == PropertyIndex(Properties, AtPosition(id))
  {
    CatalogEntries();
    var a, b := PropertyIndex(Properties, ById(id)), PropertyIndex(Properties, AtPosition(id));
    if a.Some? && b.Some? {
      assert !(a.value < b.value) && !(b.value < a.value);
    }
  }

  /** No entry sits on a special square. */
  lemma NoEntryOnSpecialSquare()
    ensures forall i :: 0 <= i < |Properties| ==> !IsSpecial(Properties[i].position)
  {
    AllChecked();
    SquareTables();
    forall i | 0 <= i < |Properties| ensures !IsSpecial(Properties[i].position) {
      SpecialSquares(Properties[i].position);
    }
  }

  /**
   * The catalog covers the board exactly: a square holds an entry precisely when the
   * board does not label it as a special square.
   */
  lemma SquaresCovered()
    ensures forall x :: 0 <= x < Squares ==> (IsSpecial(x) <==> PropertyAt(Properties, x).None?)
  {
    AllChecked();
    SquareTables();
    NoEntryOnSpecialSquare();
    forall x | 0 <= x < Squares ensures IsSpecial(x) <==> PropertyAt(Properties, x).None? {
      SpecialSquares(x);
      if !IsSpecial(x) {
        var k := EntryOnSquare(x);
        assert Properties[k].position == x;
      }
    }
  }
}
