/**
 * The three Raspberry Pi revision tables and the two translators between
 * physical header numbering (BOARD) and chip numbering (BCM) built on them.
 *
 * Each table is indexed by a physical header position 0..40 (position 0 is a
 * placeholder) and holds the chip pin wired to that position, or NoChipPin
 * where the position carries power, ground or nothing.
 */
module PinMaps {
  import opened Wrappers

  /** The Python exceptions the translators can raise. */
  datatype PinError =
    | IndexError   // list indexing outside the list
    | ValueError   // list.index of a value the list does not hold

  /** Table entry for a header position without a chip pin. */
  const NoChipPin: int := -1

  /** Number of entries in every table: header positions 0..40. */
  const HeaderSize: int := 41

  const Rev1Map: seq<int> := [-1, -1, -1, 0, -1, 1, -1, 4, 14, -1, 15, 17, 18, 21, -1, 22, 23, -1, 24, 10, -1, 9, 25, 11, 8, -1, 7, -1, -1, -1, -1, -1, -1, -1, -1, -1, -1, -1, -1, -1, -1]
  const Rev2Map: seq<int> := [-1, -1, -1, 2, -1, 3, -1, 4, 14, -1, 15, 17, 18, 27, -1, 22, 23, -1, 24, 10, -1, 9, 25, 11, 8, -1, 7, -1, -1, -1, -1, -1, -1, -1, -1, -1, -1, -1, -1, -1, -1]
  const Rev3Map: seq<int> := [-1, -1, -1, 2, -1, 3, -1, 4, 14, -1, 15, 17, 18, 27, -1, 22, 23, -1, 24, 10, -1, 9, 25, 11, 8, -1, 7, -1, -1, 5, -1, 6, 12, 13, -1, 19, 16, 26, 20, -1, 21]

  /** Every entry that names a chip pin names a different one. */
  ghost predicate Injective(t: seq<int>) {
    forall i, j :: 0 <= i < |t| && 0 <= j < |t| && t[i] != NoChipPin && t[i] == t[j] ==> i == j
  }

  /** Position i is the only position holding its chip pin. */
  ghost predicate UniqueAt(t: seq<int>, i: int)
    requires 0 <= i < |t|
  {
    t[i] == NoChipPin || forall j :: 0 <= j < |t| && t[j] == t[i] ==> j == i
  }

  /** Shape shared by all three tables. */
  ghost predicate WellFormed(t: seq<int>) {
    && |t| == HeaderSize
    && t[0] == NoChipPin
    && (forall i :: 0 <= i < |t| ==> t[i] == NoChipPin || 0 <= t[i] <= 27)
  }

  /**
   * The table for the board revision reported by the driver: revision 1 and
   * revision 2 have their own tables, every other value selects the 40-pin
   * table.
   */
  function PinMap(revision: int): (t: seq<int>)
    ensures WellFormed(t)
  {
    if revision == 1 then Rev1Map
    else if revision == 2 then Rev2Map
    else Rev3Map
  }

  /**
   * Python's `list.index`: the first position of s holding v, or None when
   * s does not hold v.
   */
  function FirstIndexOf(s: seq<int>, v: int): (r: Option<nat>)
    ensures r.Some? ==> r.value < |s| && s[r.value] == v
    ensures r.Some? ==> forall k :: 0 <= k < r.value ==> s[k] != v
    ensures r.None? <==> forall k :: 0 <= k < |s| ==> s[k] != v
  {
    if s == [] then None
    else if s[0] == v then Some(0)
    else match FirstIndexOf(s[1..], v)
      case None => None
      case Some(k) => Some(k + 1)
  }

  /**
   * Physical header position to chip pin: Python list indexing into the
   * table, which accepts -41..40 (a negative index counts from the end) and
   * raises IndexError otherwise.
   */
  function BoardToBcm(revision: int, pin: int): (r: Result<int, PinError>)
    ensures r.Err? <==> !(-HeaderSize <= pin < HeaderSize)
    ensures r.Err? ==> r.error == IndexError
    ensures 0 <= pin < HeaderSize ==> r.Ok? && r.value == PinMap(revision)[pin]
  {
    var t := PinMap(revision);
    if 0 <= pin < |t| then Ok(t[pin])
    else if -|t| <= pin < 0 then Ok(t[|t| + pin])
    else Err(IndexError)
  }

  /**
   * Chip pin to physical header position: the first position whose entry is
   * `pin`, or ValueError when no entry is.
   */
  function BcmToBoard(revision: int, pin: int): (r: Result<int, PinError>)
    ensures r.Ok? ==> 0 <= r.value < HeaderSize && PinMap(revision)[r.value] == pin
    ensures r.Ok? ==> forall k :: 0 <= k < r.value ==> PinMap(revision)[k] != pin
    ensures r.Err? <==> forall k :: 0 <= k < HeaderSize ==> PinMap(revision)[k] != pin
    ensures r.Err? ==> r.error == ValueError
  {
    match FirstIndexOf(PinMap(revision), pin)
    case Some(k) => Ok(k)
    case None => Err(ValueError)
  }

  lemma UniqueEverywhere(t: seq<int>)
    requires forall i :: 0 <= i < |t| ==> UniqueAt(t, i)
    ensures Injective(t)
  {
    forall i, j | 0 <= i < |t| && 0 <= j < |t| && t[i] != NoChipPin && t[i] == t[j]
      ensures i == j
    {
      assert UniqueAt(t, i);
    }
  }

  // The uniqueness facts are checked position by position on the literal
  // tables, seven positions at a time.
  lemma Rev1UniqueA() ensures forall i | 0 <= i < 7 :: UniqueAt(Rev1Map, i) {}
  lemma Rev1UniqueB() ensures forall i | 7 <= i < 14 :: UniqueAt(Rev1Map, i) {}
  lemma Rev1UniqueC() ensures forall i | 14 <= i < 21 :: UniqueAt(Rev1Map, i) {}
  lemma Rev1UniqueD() ensures forall i | 21 <= i < 28 :: UniqueAt(Rev1Map, i) {}
  lemma Rev1UniqueE() ensures forall i | 28 <= i < 35 :: UniqueAt(Rev1Map, i) {}
  lemma Rev1UniqueF() ensures forall i | 35 <= i < 41 :: UniqueAt(Rev1Map, i) {}
  lemma Rev2UniqueA() ensures forall i | 0 <= i < 7 :: UniqueAt(Rev2Map, i) {}
  lemma Rev2UniqueB() ensures forall i | 7 <= i < 14 :: UniqueAt(Rev2Map, i) {}
  lemma Rev2UniqueC() ensures forall i | 14 <= i < 21 :: UniqueAt(Rev2Map, i) {}
  lemma Rev2UniqueD() ensures forall i | 21 <= i < 28 :: UniqueAt(Rev2Map, i) {}
  lemma Rev2UniqueE() ensures forall i | 28 <= i < 35 :: UniqueAt(Rev2Map, i) {}
  lemma Rev2UniqueF() ensures forall i | 35 <= i < 41 :: UniqueAt(Rev2Map, i) {}
  lemma Rev3UniqueA() ensures forall i | 0 <= i < 7 :: UniqueAt(Rev3Map, i) {}
  lemma Rev3UniqueB() ensures forall i | 7 <= i < 11 :: UniqueAt(Rev3Map, i) {}
  lemma Rev3UniqueB2() ensures forall i | 11 <= i < 14 :: UniqueAt(Rev3Map, i) {}
  lemma Rev3UniqueC() ensures forall i | 14 <= i < 21 :: UniqueAt(Rev3Map, i) {}
  lemma Rev3UniqueD() ensures forall i | 21 <= i < 28 :: UniqueAt(Rev3Map, i) {}
  lemma Rev3UniqueE() ensures forall i | 28 <= i < 35 :: UniqueAt(Rev3Map, i) {}
  lemma Rev3UniqueF() ensures forall i | 35 <= i < 41 :: UniqueAt(Rev3Map, i) {}

  /** No two header positions of a revision share a chip pin. */
  lemma PinMapInjective(revision: int)
    ensures Injective(PinMap(revision))
  {
    if revision == 1 {
      Rev1UniqueA(); Rev1UniqueB(); Rev1UniqueC(); Rev1UniqueD(); Rev1UniqueE(); Rev1UniqueF();
    } else if revision == 2 {
      Rev2UniqueA(); Rev2UniqueB(); Rev2UniqueC(); Rev2UniqueD(); Rev2UniqueE(); Rev2UniqueF();
    } else {
      Rev3UniqueA(); Rev3UniqueB(); Rev3UniqueB2(); Rev3UniqueC(); Rev3UniqueD(); Rev3UniqueE(); Rev3UniqueF();
    }
    UniqueEverywhere(PinMap(revision));
  }

  /**
   * The revision value picks the table: only revision 1 wires chip pin 0 to
   * position 3, and only the 40-pin table (any revision other than 1 and 2)
   * has a chip pin at position 40.
   */
  lemma RevisionSelection(revision: int)
    ensures PinMap(revision)[3] == 0 <==> revision == 1
    ensures PinMap(revision)[13] == 27 <==> revision != 1
    ensures PinMap(revision)[40] != NoChipPin <==> revision != 1 && revision != 2
  {
  }

  /**
   * Revision 1 and revision 2 differ at positions 3, 5 and 13 only; the
   * 40-pin table agrees with revision 2 on positions 0..26.
   */
  lemma RevisionDifferences()
    ensures forall p | 0 <= p < HeaderSize :: Rev1Map[p] != Rev2Map[p] <==> p == 3 || p == 5 || p == 13
    ensures Rev3Map[..27] == Rev2Map[..27]
    ensures forall p | 27 <= p < HeaderSize :: Rev2Map[p] == NoChipPin
  {
  }

  /** A position with a chip pin translates there and back to itself. */
  lemma BoardToBcmToBoard(revision: int, p: int)
    requires 0 <= p < HeaderSize
    requires BoardToBcm(revision, p).Ok? && BoardToBcm(revision, p).value != NoChipPin
    ensures BcmToBoard(revision, BoardToBcm(revision, p).value) == Ok(p)
  {
    var t := PinMap(revision);
    PinMapInjective(revision);
    var r := BcmToBoard(revision, t[p]);
    assert r.Ok? by { assert t[p] == t[p]; }
    assert t[r.value] == t[p];
  }

  /** A chip pin present in the table translates there and back to itself. */
  lemma BcmToBoardToBcm(revision: int, c: int)
    requires BcmToBoard(revision, c).Ok?
    ensures BoardToBcm(revision, BcmToBoard(revision, c).value) == Ok(c)
  {
  }

  /**
   * Searching for the sentinel finds the placeholder position 0 rather than
   * failing.
   */
  lemma BcmToBoardOfSentinel(revision: int)
    ensures BcmToBoard(revision, NoChipPin) == Ok(0)
  {
  }
}
