/** The cells of the cable list as text, and what the generator reads in them
    (scripts/cable_list_parser_and_db_creator.py). */
module CableText {

  import opened Common
  import opened CableDb

  /** The cells of a row: its length, its vendor, its part number, and whether the rest is text the generator
      knows, as one value. An empty cell reads as "None". */
  datatype Cells = Cells(length: string, vendor: string, pn: string, attrs: Option<nat>)

  const KITS: set<string> := {
    "HPE Slingshot L1 1x16 Sw Cbl Kit Cray EX",
    "HPE Slingshot L1 2x16 Sw Cbl Kit Cray EX",
    "HPE Slingshot L1 1x32 Sw Cbl Kit Cray EX"}

  /** White space among the characters of Latin-1. */
  predicate Space(c: char) {
    var k := c as int;
    9 <= k <= 13 || 28 <= k <= 32 || k == 133 || k == 160
  }

  /** Where the text begins, and where it ends, without the white space around it. */
  function Begin(s: string): (n: nat)
    ensures n <= |s| && (forall i :: 0 <= i < n ==> Space(s[i])) && (n < |s| ==> !Space(s[n]))
  {
    if s == "" || !Space(s[0]) then 0
    else
      var n := Begin(s[1..]);
      assert forall i :: 0 < i <= n ==> s[i] == s[1..][i - 1];
      n + 1
  }

  function End(s: string): (n: nat)
    ensures n <= |s| && (forall i :: n <= i < |s| ==> Space(s[i])) && (n > 0 ==> !Space(s[n - 1]))
  {
    if s == "" || !Space(s[|s| - 1]) then |s| else End(s[..|s| - 1])
  }

  function Strip(s: string): string {
    var left := s[Begin(s)..];
    left[..End(left)]
  }

  /** Nothing but white space around a question mark. */
  predicate Mark(s: string) {
    exists k :: 0 <= k < |s| && s[k] == '?' && forall i :: 0 <= i < |s| && i != k ==> Space(s[i])
  }

  lemma StripIsMark(s: string)
    ensures Strip(s) == "?" <==> Mark(s)
  {
    var b := Begin(s);
    var left := s[b..];
    var e := End(left);
    assert forall i :: 0 <= i < |left| ==> left[i] == s[b + i];
    if Strip(s) == "?" {
      assert e == 1 && Strip(s)[0] == left[0] == s[b];
      forall i | 0 <= i < |s| && i != b ensures Space(s[i]) {
        if i > b { assert s[i] == left[i - b]; }
      }
    }
    if Mark(s) {
      var k :| 0 <= k < |s| && s[k] == '?' && forall i :: 0 <= i < |s| && i != k ==> Space(s[i]);
      assert b == k;
      assert Strip(s) == [left[0]];
    }
  }

  predicate Digit(c: char) { '0' <= c <= '9' }

  /** Blanks, tabs and line ends around it do not hide a question mark. */
  lemma MarksSeen()
    ensures Mark("?") && Mark(" ?") && Mark("?\t\r\n") && !Mark("") && !Mark("a?")
    ensures forall c: char :: Space(c) ==> c != '?' && !Digit(c) && c != 'a'
  {
    assert "?"[0] == '?' && " ?"[1] == '?' && "?\t\r\n"[0] == '?';
    assert "a?"[0] == 'a';
  }

  /** The digits of a text, the others dropped. */
  function Digits(s: string): (d: string)
    ensures forall i :: 0 <= i < |d| ==> Digit(d[i])
    ensures d == "" <==> forall i :: 0 <= i < |s| ==> !Digit(s[i])
  {
    if s == "" then ""
    else
      var n := |s| - 1;
      if Digit(s[n]) then Digits(s[..n]) + [s[n]] else Digits(s[..n])
  }

  function Figure(c: char): nat
    requires Digit(c)
  {
    c as int - '0' as int
  }

  function Value(d: string): nat
    requires forall i :: 0 <= i < |d| ==> Digit(d[i])
  {
    if d == "" then 0 else 10 * Value(d[..|d| - 1]) + Figure(d[|d| - 1])
  }

  /** The number in a part number; without digits the conversion raises ValueError. */
  function NumberIn(pn: string): Option<nat> {
    var d := Digits(pn);
    if d == "" then None else Some(Value(d))
  }

  function Read(c: Cells): Row {
    Row(c.length in KITS, Strip(c.vendor) == "?",
        if c.pn == "None" then Blank else if Strip(c.pn) == "?" then Question else Text(NumberIn(c.pn)), c.attrs)
  }

  /** A number as it is written to the table. */
  function Shown(n: nat): (s: string)
    ensures s != "" && forall i :: 0 <= i < |s| ==> Digit(s[i])
  {
    var last := ['0' + (n % 10) as char];
    if n < 10 then last else Shown(n / 10) + last
  }

  lemma {:induction false} DigitsOnly(s: string)
    requires forall i :: 0 <= i < |s| ==> Digit(s[i])
    ensures Digits(s) == s
  {
    if s != "" {
      DigitsOnly(s[..|s| - 1]);
      assert s == s[..|s| - 1] + [s[|s| - 1]];
    }
  }

  lemma {:induction false} ValueShown(n: nat)
    ensures Value(Shown(n)) == n
  {
    if n >= 10 {
      ValueShown(n / 10);
      var last := ['0' + (n % 10) as char];
      assert (Shown(n / 10) + last)[..|Shown(n / 10)|] == Shown(n / 10);
    } else {
      assert Shown(n)[..0] == "";
    }
  }

  lemma {:induction false} DigitsJoin(a: string, b: string)
    ensures Digits(a + b) == Digits(a) + Digits(b)
    decreases |b|
  {
    if b == "" {
      assert a + b == a;
    } else {
      assert (a + b)[..|a + b| - 1] == a + b[..|b| - 1];
      DigitsJoin(a, b[..|b| - 1]);
    }
  }

  /** The number of a part number is the one its digits show, whatever letters stand around and between them. */
  lemma NumberReads(before: string, n: nat, after: string)
    requires forall i :: 0 <= i < |before| ==> !Digit(before[i])
    requires forall i :: 0 <= i < |after| ==> !Digit(after[i])
    ensures NumberIn(before + Shown(n) + after) == Some(n)
  {
    DigitsJoin(before + Shown(n), after);
    DigitsJoin(before, Shown(n));
    DigitsOnly(Shown(n));
    assert Digits(before) == "" && Digits(after) == "";
    assert "" + Shown(n) == Shown(n) && Shown(n) + "" == Shown(n);
    ValueShown(n);
  }

  // ------------------------------------------------------------------ the table of a sheet of text

  function ReadAll(cs: seq<Cells>): (rows: seq<Row>)
    ensures |rows| == |cs| && forall k :: 0 <= k < |cs| ==> rows[k] == Read(cs[k])
  {
    seq(|cs|, k requires 0 <= k < |cs| => Read(cs[k]))
  }

  /** A row that belongs in the table: above the first without a part number, no kit, with a vendor and a part
      number that are no question marks. */
  predicate Listed(cs: seq<Cells>, k: nat) {
    && k < |cs| && (forall i :: 0 <= i <= k ==> cs[i].pn != "None")
    && cs[k].length !in KITS && !Mark(cs[k].vendor) && !Mark(cs[k].pn)
  }

  predicate HasDigit(s: string) { exists i :: 0 <= i < |s| && Digit(s[i]) }

  lemma ReadAs(c: Cells)
    ensures var r := Read(c);
      && (r.pn.Blank? <==> c.pn == "None") && (r.kit <==> c.length in KITS)
      && (r.noVendor <==> Mark(c.vendor)) && (c.pn != "None" ==> (r.pn.Question? <==> Mark(c.pn)))
      && (r.pn.Text? ==> r.pn.digits == NumberIn(c.pn) && (r.pn.digits.Some? <==> HasDigit(c.pn)))
  {
    StripIsMark(c.vendor);
    StripIsMark(c.pn);
  }

  lemma ListedIsWanted(cs: seq<Cells>, k: nat)
    ensures Listed(cs, k) <==> Wanted(ReadAll(cs), k)
    ensures Listed(cs, k) ==> Number(ReadAll(cs)[k]) == NumberIn(cs[k].pn)
    ensures Listed(cs, k) ==> (NumberIn(cs[k].pn).Some? <==> HasDigit(cs[k].pn))
  {
    var rows := ReadAll(cs);
    var n := DataEnd(rows);
    if k < |cs| {
      ReadAs(cs[k]);
      if k < n {
        forall i | 0 <= i <= k ensures cs[i].pn != "None" {
          ReadAs(cs[i]);
        }
      } else {
        assert rows[n].pn.Blank?;
        ReadAs(cs[n]);
      }
    }
  }

  /** Row i comes before row j in the table. */
  predicate Sooner(cs: seq<Cells>, i: nat, j: nat)
    requires i < |cs| && j < |cs|
  {
    match (NumberIn(cs[i].pn), NumberIn(cs[j].pn))
    case (Some(a), Some(b)) => a < b || (a == b && i < j)
    case _ => false
  }

  /** A listed row that ends the generator: no digit in its part number, or a cell it does not know. */
  predicate Bad(cs: seq<Cells>, k: nat) { Listed(cs, k) && (!HasDigit(cs[k].pn) || cs[k].attrs.None?) }

  predicate BadRow(rows: seq<Row>, k: nat) { Wanted(rows, k) && (!HasNumber(rows, k) || rows[k].attrs.None?) }

  lemma BadIsBadRow(cs: seq<Cells>, k: nat)
    ensures Bad(cs, k) <==> BadRow(ReadAll(cs), k)
  {
    ListedIsWanted(cs, k);
  }

  lemma FailsOnBadRow(rows: seq<Row>)
    ensures Converted(rows).Failed? <==> exists k: nat :: BadRow(rows, k)
  {
    FailsExactly(rows);
    if k: nat :| Wanted(rows, k) && !HasNumber(rows, k) {
      assert BadRow(rows, k);
    } else if k: nat :| Wanted(rows, k) && rows[k].attrs.None? {
      assert BadRow(rows, k);
    }
  }

  /** A sheet of text fails to convert exactly when some listed row ends the generator. */
  lemma TextFailsExactly(cs: seq<Cells>)
    ensures Converted(ReadAll(cs)).Failed? <==> exists k: nat :: Bad(cs, k)
  {
    FailsOnBadRow(ReadAll(cs));
    forall k: nat ensures Bad(cs, k) <==> BadRow(ReadAll(cs), k) {
      BadIsBadRow(cs, k);
    }
  }

  lemma SoonerIsEarlier(cs: seq<Cells>, i: nat, j: nat)
    requires Listed(cs, i) && Listed(cs, j) && HasNumber(ReadAll(cs), i) && HasNumber(ReadAll(cs), j)
    requires Earlier(ReadAll(cs), i, j)
    ensures Sooner(cs, i, j)
  {
    ListedIsWanted(cs, i);
    ListedIsWanted(cs, j);
  }

  /** Otherwise its table is the listed rows, each once, by number and then by place. */
  lemma TableOfText(cs: seq<Cells>) returns (picked: seq<nat>)
    requires Converted(ReadAll(cs)).Done?
    ensures forall k: nat :: k in picked <==> Listed(cs, k)
    ensures Within(ReadAll(cs), picked) && Converted(ReadAll(cs)).written == Pick(ReadAll(cs), picked)
    ensures forall i, j :: 0 <= i < j < |picked| ==> Sooner(cs, picked[i], picked[j])
  {
    var rows := ReadAll(cs);
    FailsExactly(rows);
    var rest;
    picked, rest := StableSort(rows);
    forall k: nat ensures k in picked <==> Listed(cs, k) {
      ListedIsWanted(cs, k);
    }
    forall i, j | 0 <= i < j < |picked| ensures Sooner(cs, picked[i], picked[j]) {
      assert picked[i] in picked && picked[j] in picked;
      SoonerIsEarlier(cs, picked[i], picked[j]);
    }
  }
}
