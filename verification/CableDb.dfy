/** The cable database generator: part numbers are collected and sorted, then each is searched in the
    sheet and its row written and deleted (scripts/cable_list_parser_and_db_creator.py). */
module CableDb {

  import opened Common

  /** The part number cell: empty, a lone question mark, or text with or without digits. */
  datatype PartNum = Blank | Question | Text(digits: Option<nat>)

  /** What the generator looks at in a row: is its length that of a cable kit, is its vendor a question
      mark, its part number, and all it writes besides; `attrs` is None if one of those cells holds a text
      the generator does not know, which ends it. */
  datatype Row = Row(kit: bool, noVendor: bool, pn: PartNum, attrs: Option<nat>)

  predicate Ignored(r: Row) { r.kit || r.noVendor || r.pn.Question? }

  /** The number in the digits of a part number; without digits the conversion raises ValueError. */
  function Number(r: Row): Option<nat> {
    if r.pn.Text? then r.pn.digits else None
  }

  /** Cells past the end read as empty. */
  function At(rows: seq<Row>, k: nat): Row {
    if k < |rows| then rows[k] else Row(false, false, Blank, None)
  }

  // ------------------------------------------------------------------ the three passes

  /** The data ends before the first row without a part number. */
  function DataEnd(rows: seq<Row>): (n: nat)
    ensures n <= |rows| && At(rows, n).pn.Blank?
    ensures forall k :: 0 <= k < n ==> !rows[k].pn.Blank?
  {
    if rows == [] || rows[0].pn.Blank? then 0
    else
      var n := DataEnd(rows[1..]);
      assert At(rows, n + 1) == At(rows[1..], n);
      n + 1
  }

  datatype Numbers = ValueError | Numbers(list: seq<nat>)

  /** The numbers of the first n rows that are not ignored, in sheet order. */
  function PartNums(rows: seq<Row>, n: nat): Numbers
    requires n <= |rows|
  {
    if n == 0 then Numbers([])
    else match PartNums(rows, n - 1)
      case ValueError => ValueError
      case Numbers(list) =>
        if Ignored(rows[n - 1]) then Numbers(list)
        else match Number(rows[n - 1])
          case None => ValueError
          case Some(d) => Numbers(list + [d])
  }

  predicate Ascending(s: seq<nat>) { forall i, j :: 0 <= i < j < |s| ==> s[i] <= s[j] }

  function Inserted(s: seq<nat>, x: nat): (r: seq<nat>)
    requires Ascending(s)
    ensures Ascending(r) && multiset(r) == multiset(s) + multiset{x}
    ensures forall i :: 0 <= i < |r| ==> r[i] == x || r[i] in s
  {
    if s == [] || s[|s| - 1] <= x then s + [x]
    else
      var n := |s| - 1;
      assert s == s[..n] + [s[n]];
      var r := Inserted(s[..n], x);
      assert forall i :: 0 <= i < |r| ==> r[i] <= s[n];
      r + [s[n]]
  }

  function Sorted(s: seq<nat>): (r: seq<nat>)
    ensures Ascending(r) && multiset(r) == multiset(s)
  {
    if s == [] then [] else
      var n := |s| - 1;
      assert s == s[..n] + [s[n]];
      Inserted(Sorted(s[..n]), s[n])
  }

  /** The first row from k on that is not ignored and has this number, unless one without a number comes
      first. The walk has no bound of its own. */
  function Search(rows: seq<Row>, pn: nat, k: nat): (found: Option<nat>)
    ensures found.Some? ==> found.value < |rows|
    decreases |rows| - k
  {
    if Ignored(At(rows, k)) then Search(rows, pn, k + 1)
    else match Number(At(rows, k))
      case None => None
      case Some(d) => if d == pn then Some(k) else Search(rows, pn, k + 1)
  }

  function Without(rows: seq<Row>, k: nat): seq<Row>
    requires k < |rows|
  {
    rows[..k] + rows[k + 1..]
  }

  /** What is written and what is left in the sheet. */
  datatype Output = Failed | Done(written: seq<Row>, left: seq<Row>)

  function Written(rows: seq<Row>, pns: seq<nat>): Output {
    if pns == [] then Done([], rows)
    else match Search(rows, pns[0], 0)
      case None => Failed
      case Some(k) =>
        if rows[k].attrs.None? then Failed
        else match Written(Without(rows, k), pns[1..])
          case Failed => Failed
          case Done(written, left) => Done([rows[k]] + written, left)
  }

  function Converted(rows: seq<Row>): Output {
    match PartNums(rows, DataEnd(rows))
    case ValueError => Failed
    case Numbers(list) => Written(rows, Sorted(list))
  }

  /** The numbers of both sheets are collected before either is written. */
  function ConvertedBoth(rows: seq<Row>, rows': seq<Row>): Output {
    match (PartNums(rows, DataEnd(rows)), PartNums(rows', DataEnd(rows')))
    case (Numbers(list), Numbers(list')) =>
      (match (Written(rows, Sorted(list)), Written(rows', Sorted(list')))
       case (Done(written, left), Done(written', left')) => Done(written + written', left + left')
       case _ => Failed)
    case _ => Failed
  }

  function Before(first: seq<Row>, o: Output): Output {
    match o case Failed => Failed case Done(w, left) => Done(first + w, left)
  }

  lemma BeforeBoth(first: seq<Row>, r: Row, o: Output)
    ensures Before(first, Before([r], o)) == Before(first + [r], o)
  {
    if o.Done? {
      assert first + ([r] + o.written) == first + [r] + o.written;
    }
  }

  lemma {:induction false} ErrorStays(rows: seq<Row>, n: nat, m: nat)
    requires n <= m <= |rows| && PartNums(rows, n).ValueError?
    ensures PartNums(rows, m).ValueError?
    decreases m
  {
    if n < m {
      ErrorStays(rows, n, m - 1);
    }
  }

  // ------------------------------------------------------------------ the program

  class Sheet {
    var rows: seq<Row>

    constructor (rows: seq<Row>)
      ensures this.rows == rows
    {
      this.rows := rows;
    }

    /** Rows are numbered from one and the first is the heading, so data row k is sheet row k + 2. */
    method RowsCount() returns (counter: nat)
      ensures counter == DataEnd(rows) + 1
    {
      var currRow := 1;
      counter := 1;
      while true
        invariant currRow == counter && 1 <= counter <= DataEnd(rows) + 1
        decreases |rows| - counter
      {
        if At(rows, currRow - 1).pn.Blank? {
          break;
        }
        counter := counter + 1;
        currRow := currRow + 1;
      }
    }

    method PartNumsGet(count: nat) returns (numbers: Numbers)
      requires 1 <= count <= |rows| + 1
      ensures numbers == PartNums(rows, count - 1)
    {
      var list := [];
      for row := 1 to count
        invariant PartNums(rows, row - 1) == Numbers(list)
      {
        var r := rows[row - 1];
        if Ignored(r) { continue; }
        match Number(r)
        case None =>
          ErrorStays(rows, row, count - 1);
          return ValueError;
        case Some(d) =>
          list := list + [d];
      }
      return Numbers(list);
    }

    /** Walks down the sheet until the number is found. */
    method Find(pn: nat) returns (found: Option<nat>)
      ensures found == Search(rows, pn, 0)
    {
      var currRow := 0;
      while true
        invariant currRow <= |rows|
        invariant Search(rows, pn, 0) == Search(rows, pn, currRow)
        decreases |rows| - currRow
      {
        var r := At(rows, currRow);
        if Ignored(r) {
          currRow := currRow + 1;
          continue;
        }
        match Number(r)
        case None =>
          return None;
        case Some(d) =>
          if pn == d {
            return Some(currRow);
          }
        currRow := currRow + 1;
      }
    }

    method DeleteRow(k: nat)
      requires k < |rows|
      modifies this
      ensures rows == Without(old(rows), k)
    {
      rows := rows[..k] + rows[k + 1..];
    }

    method CableInfoWrite(pns: seq<nat>) returns (ok: bool, written: seq<Row>)
      modifies this
      ensures match Written(old(rows), pns)
              case Failed => !ok
              case Done(w, left) => ok && written == w && rows == left
    {
      written := [];
      for i := 0 to |pns|
        invariant Written(old(rows), pns) == Before(written, Written(rows, pns[i..]))
      {
        assert pns[i..][1..] == pns[i + 1..];
        var found := Find(pns[i]);
        match found
        case None =>
          return false, written;
        case Some(k) =>
          var r := rows[k];
          if r.attrs.None? {
            return false, written;
          }
          BeforeBoth(written, r, Written(Without(rows, k), pns[i + 1..]));
          written := written + [r];
          DeleteRow(k);
      }
      assert pns[|pns|..] == [];
      ok := true;
    }

    /** The numbers of a sheet, in sheet order. */
    method Collect() returns (numbers: Numbers)
      ensures numbers == PartNums(rows, DataEnd(rows))
    {
      var count := RowsCount();
      numbers := PartNumsGet(count);
    }
  }

  /** The whole conversion of both sheets. */
  method Convert(sheet: Sheet, sheet': Sheet) returns (ok: bool, written: seq<Row>)
    requires sheet != sheet'
    modifies sheet, sheet'
    ensures match ConvertedBoth(old(sheet.rows), old(sheet'.rows))
            case Failed => !ok
            case Done(w, left) => ok && written == w && sheet.rows + sheet'.rows == left
  {
    written := [];
    var numbers := sheet.Collect();
    if numbers.ValueError? { return false, []; }
    var numbers' := sheet'.Collect();
    if numbers'.ValueError? { return false, []; }
    ok, written := sheet.CableInfoWrite(Sorted(numbers.list));
    if !ok { return; }
    var written';
    ok, written' := sheet'.CableInfoWrite(Sorted(numbers'.list));
    written := written + written';
  }

  // ------------------------------------------------------------------ a stable sort

  /** Row k is data that is to be written. */
  predicate Wanted(rows: seq<Row>, k: nat) {
    k < DataEnd(rows) && !Ignored(rows[k])
  }

  predicate HasNumber(rows: seq<Row>, k: nat) {
    k < |rows| && Number(rows[k]).Some?
  }

  /** Rows in order of their number, rows of one number in sheet order. */
  predicate Earlier(rows: seq<Row>, i: nat, j: nat)
    requires HasNumber(rows, i) && HasNumber(rows, j)
  {
    var a, b := Number(rows[i]).value, Number(rows[j]).value;
    a < b || (a == b && i < j)
  }

  predicate Increasing(ids: seq<nat>) { forall i, j :: 0 <= i < j < |ids| ==> ids[i] < ids[j] }

  predicate Within(rows: seq<Row>, ids: seq<nat>) { forall i :: 0 <= i < |ids| ==> ids[i] < |rows| }

  function Pick(rows: seq<Row>, ids: seq<nat>): (p: seq<Row>)
    requires Within(rows, ids)
    ensures |p| == |ids| && forall i :: 0 <= i < |p| ==> p[i] == rows[ids[i]]
  {
    if ids == [] then [] else Pick(rows, ids[..|ids| - 1]) + [rows[ids[|ids| - 1]]]
  }

  predicate InOrder(rows: seq<Row>, ids: seq<nat>) {
    && (forall i :: 0 <= i < |ids| ==> HasNumber(rows, ids[i]))
    && (forall i, j :: 0 <= i < j < |ids| ==> Earlier(rows, ids[i], ids[j]))
  }

  /** The numbers of the rows of a list that are wanted, in the order of the list. */
  function NumbersOf(rows: seq<Row>, ids: seq<nat>): seq<nat>
    requires Within(rows, ids)
  {
    if ids == [] then []
    else
      var rest := NumbersOf(rows, ids[..|ids| - 1]);
      var k := ids[|ids| - 1];
      if Wanted(rows, k) && HasNumber(rows, k) then rest + [Number(rows[k]).value] else rest
  }

  function Less(ids: seq<nat>, k: nat): seq<nat>
    requires k < |ids|
  {
    ids[..k] + ids[k + 1..]
  }

  lemma PickLess(rows: seq<Row>, ids: seq<nat>, k: nat)
    requires Within(rows, ids) && k < |ids|
    ensures Within(rows, Less(ids, k)) && Pick(rows, Less(ids, k)) == Without(Pick(rows, ids), k)
  {
  }

  lemma {:induction false} NumbersJoin(rows: seq<Row>, a: seq<nat>, b: seq<nat>)
    requires Within(rows, a) && Within(rows, b)
    ensures NumbersOf(rows, a + b) == NumbersOf(rows, a) + NumbersOf(rows, b)
    decreases |b|
  {
    if b == [] {
      assert a + b == a;
    } else {
      assert (a + b)[..|a + b| - 1] == a + b[..|b| - 1];
      NumbersJoin(rows, a, b[..|b| - 1]);
    }
  }

  lemma NumbersSplit(rows: seq<Row>, ids: seq<nat>, k: nat)
    requires Within(rows, ids) && k < |ids|
    ensures Within(rows, Less(ids, k))
    ensures multiset(NumbersOf(rows, ids))
         == multiset(NumbersOf(rows, Less(ids, k))) + multiset(NumbersOf(rows, [ids[k]]))
  {
    assert ids == ids[..k] + ([ids[k]] + ids[k + 1..]);
    NumbersJoin(rows, ids[..k], [ids[k]] + ids[k + 1..]);
    NumbersJoin(rows, [ids[k]], ids[k + 1..]);
    NumbersJoin(rows, ids[..k], ids[k + 1..]);
  }

  predicate Match(rows: seq<Row>, k: nat, pn: nat) {
    Wanted(rows, k) && Number(rows[k]) == Some(pn)
  }

  lemma {:induction false} NumberHasRow(rows: seq<Row>, ids: seq<nat>, pn: nat) returns (k: nat)
    requires Within(rows, ids) && pn in NumbersOf(rows, ids)
    ensures k < |ids| && Match(rows, ids[k], pn)
  {
    var n := |ids| - 1;
    if Match(rows, ids[n], pn) {
      k := n;
    } else {
      k := NumberHasRow(rows, ids[..n], pn);
    }
  }

  lemma RowHasNumber(rows: seq<Row>, ids: seq<nat>, k: nat, pn: nat)
    requires Within(rows, ids) && k < |ids| && Match(rows, ids[k], pn)
    ensures pn in NumbersOf(rows, ids)
  {
    NumbersSplit(rows, ids, k);
    assert [ids[k]][..0] == [];
    assert NumbersOf(rows, [ids[k]]) == [pn];
    assert pn in multiset(NumbersOf(rows, ids));
  }

  ghost predicate Numbered(rows: seq<Row>) { forall k: nat :: Wanted(rows, k) ==> HasNumber(rows, k) }

  ghost predicate Known(rows: seq<Row>) { forall k: nat :: Wanted(rows, k) ==> rows[k].attrs.Some? }

  /** The search finds its row, the first that is left, before it leaves the data. */
  lemma {:induction false} SearchFinds(rows: seq<Row>, ids: seq<nat>, pn: nat, from: nat, k: nat) returns (j: nat)
    requires Numbered(rows) && Within(rows, ids) && Increasing(ids)
    requires from <= k < |ids| && Match(rows, ids[k], pn)
    ensures from <= j <= k && Search(Pick(rows, ids), pn, from) == Some(j) && Match(rows, ids[j], pn)
    ensures forall i :: from <= i < j ==> !Match(rows, ids[i], pn)
    decreases k - from
  {
    if Match(rows, ids[from], pn) {
      j := from;
    } else {
      assert ids[from] < ids[k] < DataEnd(rows);
      assert Wanted(rows, ids[from]) ==> HasNumber(rows, ids[from]);
      j := SearchFinds(rows, ids, pn, from + 1, k);
    }
  }

  /** `ids` splits into the rows written, in order, and the rows left, which are none that is wanted. */
  ghost predicate Splits(rows: seq<Row>, ids: seq<nat>, picked: seq<nat>, rest: seq<nat>) {
    && InOrder(rows, picked) && Increasing(rest)
    && (forall k: nat :: k in picked <==> k in ids && Wanted(rows, k))
    && (forall k: nat :: k in rest <==> k in ids && !Wanted(rows, k))
  }

  lemma NothingWanted(rows: seq<Row>, ids: seq<nat>, k: nat)
    requires Numbered(rows) && Within(rows, ids) && k in ids && multiset(NumbersOf(rows, ids)) == multiset{}
    ensures !Wanted(rows, k)
  {
    assert NumbersOf(rows, ids) == [];
    if Wanted(rows, k) {
      var i :| 0 <= i < |ids| && ids[i] == k;
      assert HasNumber(rows, k);
      RowHasNumber(rows, ids, i, Number(rows[k]).value);
      assert false;
    }
  }

  lemma OneNumber(rows: seq<Row>, k: nat, pn: nat)
    requires k < |rows| && Match(rows, k, pn)
    ensures NumbersOf(rows, [k]) == [pn]
  {
    assert [k][..0] == [];
  }

  lemma HeadOut(pns: seq<nat>)
    requires pns != []
    ensures multiset(pns) == multiset(pns[1..]) + multiset([pns[0]])
  {
    assert pns == [pns[0]] + pns[1..];
  }

  lemma OneLess(a: multiset<nat>, b: multiset<nat>, x: nat)
    requires a + multiset([x]) == b + multiset([x])
    ensures a == b
  {
    assert a == (a + multiset([x])) - multiset([x]);
  }

  lemma TakeNumber(rows: seq<Row>, ids: seq<nat>, pns: seq<nat>, j: nat)
    requires Within(rows, ids) && pns != []
    requires multiset(NumbersOf(rows, ids)) == multiset(pns) && j < |ids| && Match(rows, ids[j], pns[0])
    ensures Within(rows, Less(ids, j)) && multiset(NumbersOf(rows, Less(ids, j))) == multiset(pns[1..])
  {
    NumbersSplit(rows, ids, j);
    OneNumber(rows, ids[j], pns[0]);
    HeadOut(pns);
    OneLess(multiset(NumbersOf(rows, Less(ids, j))), multiset(pns[1..]), pns[0]);
  }

  lemma LessHas(ids: seq<nat>, j: nat)
    requires Increasing(ids) && j < |ids|
    ensures Increasing(Less(ids, j))
    ensures forall k: nat :: k in Less(ids, j) <==> k in ids && k != ids[j]
  {
    var l := Less(ids, j);
    forall k: nat ensures k in l <==> k in ids && k != ids[j] {
      if k in ids && k != ids[j] {
        var i :| 0 <= i < |ids| && ids[i] == k;
        assert l[if i < j then i else i - 1] == k;
      }
    }
  }

  lemma FirstIsEarlier(rows: seq<Row>, ids: seq<nat>, pns: seq<nat>, j: nat, later: seq<nat>)
    requires Numbered(rows) && Within(rows, ids) && Increasing(ids) && pns != [] && Ascending(pns)
    requires multiset(NumbersOf(rows, ids)) == multiset(pns) && j < |ids| && Match(rows, ids[j], pns[0])
    requires forall i :: 0 <= i < j ==> !Match(rows, ids[i], pns[0])
    requires InOrder(rows, later) && forall k: nat :: k in later <==> k in ids && k != ids[j] && Wanted(rows, k)
    ensures InOrder(rows, [ids[j]] + later)
  {
    forall m | 0 <= m < |later| ensures Earlier(rows, ids[j], later[m]) {
      var k := later[m];
      assert k in later;
      var i :| 0 <= i < |ids| && ids[i] == k;
      var d := Number(rows[k]).value;
      RowHasNumber(rows, ids, i, d);
      assert d in multiset(pns);
      assert d in pns;
      assert pns[0] <= d;
      assert d == pns[0] ==> Match(rows, ids[i], pns[0]);
    }
  }

  /** What holds of the rows but one, and of that one, holds of them all. */
  lemma SplitsMore(rows: seq<Row>, ids: seq<nat>, j: nat, later: seq<nat>, rest: seq<nat>)
    requires Increasing(ids) && j < |ids| && Wanted(rows, ids[j])
    requires Splits(rows, Less(ids, j), later, rest) && InOrder(rows, [ids[j]] + later)
    ensures Splits(rows, ids, [ids[j]] + later, rest)
  {
    LessHas(ids, j);
    assert ids[j] in ids;
    forall k: nat ensures k in [ids[j]] + later <==> k in ids && Wanted(rows, k) {
      assert k in [ids[j]] + later <==> k == ids[j] || k in later;
    }
  }

  lemma PickMore(rows: seq<Row>, k: nat, later: seq<nat>)
    requires k < |rows| && Within(rows, later)
    ensures Within(rows, [k] + later) && Pick(rows, [k] + later) == [rows[k]] + Pick(rows, later)
  {
  }

  lemma {:induction false} WriteSorts(rows: seq<Row>, ids: seq<nat>, pns: seq<nat>)
      returns (picked: seq<nat>, rest: seq<nat>)
    requires Numbered(rows) && Known(rows) && Within(rows, ids) && Increasing(ids) && Ascending(pns)
    requires multiset(NumbersOf(rows, ids)) == multiset(pns)
    ensures Splits(rows, ids, picked, rest) && Within(rows, picked) && Within(rows, rest)
    ensures Written(Pick(rows, ids), pns) == Done(Pick(rows, picked), Pick(rows, rest))
    decreases |pns|
  {
    if pns == [] {
      picked, rest := [], ids;
      forall k: nat | k in ids ensures !Wanted(rows, k) {
        NothingWanted(rows, ids, k);
      }
    } else {
      var pn := pns[0];
      assert pn in multiset(pns);
      var k := NumberHasRow(rows, ids, pn);
      var j := SearchFinds(rows, ids, pn, 0, k);
      TakeNumber(rows, ids, pns, j);
      PickLess(rows, ids, j);
      LessHas(ids, j);
      var later;
      later, rest := WriteSorts(rows, Less(ids, j), pns[1..]);
      picked := [ids[j]] + later;
      FirstIsEarlier(rows, ids, pns, j, later);
      SplitsMore(rows, ids, j, later, rest);
      PickMore(rows, ids[j], later);
    }
  }

  function Ids(n: nat): (ids: seq<nat>)
    ensures |ids| == n && forall i :: 0 <= i < n ==> ids[i] == i
  {
    if n == 0 then [] else Ids(n - 1) + [n - 1]
  }

  lemma {:induction false} PartNumsAre(rows: seq<Row>, n: nat)
    requires n <= DataEnd(rows)
    ensures PartNums(rows, n).ValueError? <==> exists k: nat :: k < n && Wanted(rows, k) && !HasNumber(rows, k)
    ensures PartNums(rows, n).Numbers? ==> PartNums(rows, n).list == NumbersOf(rows, Ids(n))
  {
    if n > 0 {
      PartNumsAre(rows, n - 1);
      assert Ids(n)[..n - 1] == Ids(n - 1);
      assert Wanted(rows, n - 1) <==> !Ignored(rows[n - 1]);
      if exists k: nat :: k < n && Wanted(rows, k) && !HasNumber(rows, k) {
        var k: nat :| k < n && Wanted(rows, k) && !HasNumber(rows, k);
        assert k == n - 1 || k < n - 1;
      }
    }
  }

  lemma NumbersSkip(rows: seq<Row>, ids: seq<nat>, k: nat)
    requires Within(rows, ids) && k < |rows| && !Wanted(rows, k)
    ensures Within(rows, ids + [k]) && NumbersOf(rows, ids + [k]) == NumbersOf(rows, ids)
  {
    assert (ids + [k])[..|ids|] == ids;
  }

  lemma {:induction false} NoNumbersAfterData(rows: seq<Row>, n: nat)
    requires DataEnd(rows) <= n <= |rows|
    ensures NumbersOf(rows, Ids(n)) == NumbersOf(rows, Ids(DataEnd(rows)))
    decreases n
  {
    if n > DataEnd(rows) {
      NoNumbersAfterData(rows, n - 1);
      NumbersSkip(rows, Ids(n - 1), n - 1);
    }
  }

  lemma IdsHas(n: nat, k: nat)
    ensures k in Ids(n) <==> k < n
  {
    if k < n { assert Ids(n)[k] == k; }
  }

  lemma PickAll(rows: seq<Row>)
    ensures Within(rows, Ids(|rows|)) && Increasing(Ids(|rows|)) && Pick(rows, Ids(|rows|)) == rows
  {
    var p := Pick(rows, Ids(|rows|));
    assert |p| == |rows|;
  }

  lemma AllNumbers(rows: seq<Row>)
    requires Numbered(rows)
    ensures PartNums(rows, DataEnd(rows)) == Numbers(NumbersOf(rows, Ids(|rows|)))
  {
    PartNumsAre(rows, DataEnd(rows));
    NoNumbersAfterData(rows, |rows|);
  }

  lemma SplitsAll(rows: seq<Row>, picked: seq<nat>, rest: seq<nat>)
    requires Splits(rows, Ids(|rows|), picked, rest)
    ensures forall k: nat :: k in picked <==> Wanted(rows, k)
    ensures forall k: nat :: k in rest <==> k < |rows| && !Wanted(rows, k)
  {
    forall k: nat ensures k in Ids(|rows|) <==> k < |rows| {
      IdsHas(|rows|, k);
    }
  }

  /** The table is the stable sort, by number, of the rows that are not ignored, each written once, and
      the sheet keeps all the others in place. */
  lemma StableSort(rows: seq<Row>) returns (picked: seq<nat>, rest: seq<nat>)
    requires Numbered(rows) && Known(rows)
    ensures InOrder(rows, picked) && Within(rows, picked) && Increasing(rest) && Within(rows, rest)
    ensures forall k: nat :: k in picked <==> Wanted(rows, k)
    ensures forall k: nat :: k in rest <==> k < |rows| && !Wanted(rows, k)
    ensures Converted(rows) == Done(Pick(rows, picked), Pick(rows, rest))
  {
    AllNumbers(rows);
    PickAll(rows);
    var list := PartNums(rows, DataEnd(rows)).list;
    picked, rest := WriteSorts(rows, Ids(|rows|), Sorted(list));
    SplitsAll(rows, picked, rest);
  }

  /** A wanted row with an unknown cell is reached sooner or later, and ends the writing. */
  lemma {:induction false} WriteFails(rows: seq<Row>, ids: seq<nat>, pns: seq<nat>, bad: nat)
    requires Numbered(rows) && Within(rows, ids) && Increasing(ids) && Ascending(pns)
    requires multiset(NumbersOf(rows, ids)) == multiset(pns)
    requires bad in ids && Wanted(rows, bad) && rows[bad].attrs.None?
    ensures Written(Pick(rows, ids), pns).Failed?
    decreases |pns|
  {
    if pns == [] {
      NothingWanted(rows, ids, bad);
    } else {
      assert pns[0] in multiset(pns);
      var k := NumberHasRow(rows, ids, pns[0]);
      var j := SearchFinds(rows, ids, pns[0], 0, k);
      if rows[ids[j]].attrs.Some? {
        TakeNumber(rows, ids, pns, j);
        PickLess(rows, ids, j);
        LessHas(ids, j);
        WriteFails(rows, Less(ids, j), pns[1..], bad);
      }
    }
  }

  /** The conversion fails exactly when some row to be written has no digits in its number or a cell the
      generator does not know. */
  lemma FailsExactly(rows: seq<Row>)
    ensures Converted(rows).Failed? <==> !(Numbered(rows) && Known(rows))
  {
    PartNumsAre(rows, DataEnd(rows));
    if !Numbered(rows) {
      var k: nat :| Wanted(rows, k) && !HasNumber(rows, k);
      assert k < DataEnd(rows);
    } else if Known(rows) {
      var picked, rest := StableSort(rows);
    } else {
      var bad: nat :| Wanted(rows, bad) && rows[bad].attrs.None?;
      AllNumbers(rows);
      PickAll(rows);
      IdsHas(|rows|, bad);
      WriteFails(rows, Ids(|rows|), Sorted(PartNums(rows, DataEnd(rows)).list), bad);
    }
  }

  /** Both sheets together: the run completes exactly when each of them converts, and the table is then
      the one stable sort after the other. */
  lemma BothConverted(rows: seq<Row>, rows': seq<Row>)
    ensures ConvertedBoth(rows, rows').Failed? <==>
              !(Numbered(rows) && Known(rows) && Numbered(rows') && Known(rows'))
    ensures ConvertedBoth(rows, rows').Done? ==>
              ConvertedBoth(rows, rows').written == Converted(rows).written + Converted(rows').written
  {
    FailsExactly(rows);
    FailsExactly(rows');
  }

  lemma TailHas(rows: seq<Row>, a: seq<nat>)
    requires InOrder(rows, a) && a != []
    ensures InOrder(rows, a[1..]) && forall k: nat :: k in a[1..] <==> k in a && k != a[0]
  {
    assert a == [a[0]] + a[1..];
    forall i | 0 < i < |a| ensures a[i] != a[0] {
      assert Earlier(rows, a[0], a[i]);
    }
  }

  /** There is only one such order. */
  lemma {:induction false} OrderUnique(rows: seq<Row>, a: seq<nat>, b: seq<nat>)
    requires InOrder(rows, a) && InOrder(rows, b) && forall k: nat :: k in a <==> k in b
    ensures a == b
    decreases |a|
  {
    assert b != [] ==> b[0] in b;
    if a != [] {
      assert a[0] in a && b[0] in b;
      var i :| 0 <= i < |b| && b[i] == a[0];
      var j :| 0 <= j < |a| && a[j] == b[0];
      assert i > 0 ==> Earlier(rows, b[0], b[i]);
      assert j > 0 ==> Earlier(rows, a[0], a[j]);
      assert a[0] == b[0];
      TailHas(rows, a);
      TailHas(rows, b);
      OrderUnique(rows, a[1..], b[1..]);
      assert a == [a[0]] + a[1..] && b == [b[0]] + b[1..];
    }
  }
}
