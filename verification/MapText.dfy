/** Bit maps as text in a caller's buffer: down causes (sl_link.c), link information
    (core/sl_core_str.c) and media errors (media/sl_media_jack.c). Maps are sets of bit numbers. */
module MapText {

  const NUL: char := '\0'

  /** A word of the text: three characters or more, none a space or a NUL. */
  predicate Clean(word: string) { |word| >= 3 && ' ' !in word && NUL !in word }

  function CauseNameA(bit: nat): (n: string)
    ensures Clean(n) && |n| <= 17
  {
    match bit
    case 1 => "ucw" case 2 => "lcl-fault" case 3 => "rmt-fault" case 4 => "link-down" case 5 => "up-tries"
    case 6 => "autoneg-nomatch" case 7 => "autoneg-fail"
    case _ => "unknown"
  }

  function CauseNameB(bit: nat): (n: string)
    ensures Clean(n) && |n| <= 17
  {
    match bit
    case 8 => "config" case 9 => "intr-enable" case 10 => "timeout" case 11 => "canceled" case 13 => "command"
    case 14 => "downshift-fail" case 15 => "llr-replay-at-max" case 16 => "upshift-fail"
    case _ => "unknown"
  }

  function CauseNameC(bit: nat): (n: string)
    ensures Clean(n) && |n| <= 17
  {
    match bit
    case 17 => "an-config" case 18 => "pcs-fault" case 19 => "serdes-pll" case 20 => "serdes-config"
    case 21 => "serdes-signal" case 22 => "serdes-quality" case 23 => "no-media" case 24 => "ccw"
    case _ => "unknown"
  }

  function CauseNameD(bit: nat): (n: string)
    ensures Clean(n) && |n| <= 17
  {
    match bit
    case 25 => "media-hot" case 26 => "media-warm" case 27 => "interrupt-reg" case 28 => "media-error"
    case 29 => "up-canceled" case 30 => "unsupported-speed" case 31 => "ss200-cable" case 32 => "tx-lol"
    case _ => "unknown"
  }

  function CauseNameE(bit: nat): (n: string)
    ensures Clean(n) && |n| <= 17
  {
    match bit
    case 33 => "rx-lol" case 34 => "tx-los" case 35 => "rx-los" case 61 => "retryable" case 62 => "origin-async"
    case 63 => "origin-up"
    case _ => "unknown"
  }

  /** The name of a down cause bit, looked up a few bits at a time. */
  function CauseName(bit: nat): (n: string)
    ensures Clean(n) && |n| <= 17
  {
    if bit <= 7 then CauseNameA(bit)
    else if bit <= 16 then CauseNameB(bit)
    else if bit <= 24 then CauseNameC(bit)
    else if bit <= 32 then CauseNameD(bit)
    else CauseNameE(bit)
  }

  function InfoNameA(bit: nat): (n: string)
    ensures Clean(n) && |n| <= 18
  {
    match bit
    case 0 => "media-check" case 1 => "media-ok" case 2 => "serdes-start" case 3 => "serdes-check"
    case 4 => "serdes-ok" case 5 => "serdes-loopback-on"
    case _ => "unknown"
  }

  function InfoNameB(bit: nat): (n: string)
    ensures Clean(n) && |n| <= 18
  {
    match bit
    case 6 => "pcs-local-fault" case 7 => "pcs-remote-fault" case 8 => "pcs-link-down" case 9 => "pcs-check"
    case 10 => "pcs-ok" case 11 => "fec-check" case 12 => "fec-ok"
    case _ => "unknown"
  }

  function InfoNameC(bit: nat): (n: string)
    ensures Clean(n) && |n| <= 18
  {
    match bit
    case 13 => "link-degraded" case 14 => "link-down" case 15 => "link-up-cancel" case 16 => "link-up-timeout"
    case 17 => "link-up-fail" case 18 => "link-up"
    case _ => "unknown"
  }

  function InfoNameD(bit: nat): (n: string)
    ensures Clean(n) && |n| <= 18
  {
    match bit
    case 19 => "mac-rx-config" case 20 => "mac-tx-config" case 21 => "mac-rx" case 22 => "mac-tx"
    case 23 => "an-base-page" case 24 => "an-next-page" case 25 => "an-error" case 26 => "an-done"
    case _ => "unknown"
  }

  function InfoNameE(bit: nat): (n: string)
    ensures Clean(n) && |n| <= 18
  {
    match bit
    case 27 => "llr-config" case 28 => "llr-setting-up" case 29 => "llr-setup" case 30 => "llr-setup-timeout"
    case 31 => "llr-starting" case 32 => "llr-running" case 33 => "llr-start-timeout"
    case 34 => "llr-max-starvation" case 35 => "llr-starved" case 36 => "llr-replay-max" case 37 => "high-ser"
    case _ => "unknown"
  }

  /** The name of a link information bit; there are 38 of them. */
  function InfoName(bit: nat): (n: string)
    ensures Clean(n) && |n| <= 18
  {
    if bit <= 5 then InfoNameA(bit)
    else if bit <= 12 then InfoNameB(bit)
    else if bit <= 18 then InfoNameC(bit)
    else if bit <= 26 then InfoNameD(bit)
    else InfoNameE(bit)
  }

  function ErrorNameA(bit: nat): (n: string)
    ensures Clean(n) && |n| <= 24
  {
    match bit
    case 0 => "cable-unsupported" case 1 => "cable-format-unsupported" case 2 => "cable-fw-unsupported"
    case _ => "unknown"
  }

  function ErrorNameB(bit: nat): (n: string)
    ensures Clean(n) && |n| <= 24
  {
    match bit
    case 3 => "cable-headshell-fault" case 4 => "temp-down-limit-default" case 31 => "tryable"
    case 5 => "temp-warn-limit-default"
    case _ => "unknown"
  }

  /** The name of a media error bit. */
  function ErrorName(bit: nat): (n: string)
    ensures Clean(n) && |n| <= 24
  {
    if bit <= 2 then ErrorNameA(bit) else ErrorNameB(bit)
  }

  // ------------------------------------------------------------------ the text meant

  type Naming = nat -> string

  /** The names of the bits below n that are set, in ascending order. */
  function Names(name: Naming, bits: set<nat>, n: nat): seq<string> {
    if n == 0 then []
    else if n - 1 in bits then Names(name, bits, n - 1) + [name(n - 1)]
    else Names(name, bits, n - 1)
  }

  /** Each name followed by a space. */
  function Spaced(list: seq<string>): string {
    if list == [] then "" else Spaced(list[..|list| - 1]) + list[|list| - 1] + " "
  }

  /** The first k names fit, with the spaces after them. */
  predicate Fits(list: seq<string>, k: nat, size: nat)
    requires k <= |list|
  {
    |Spaced(list[..k])| < size
  }

  /** As many names fit as k, and no more. */
  predicate Longest(list: seq<string>, k: nat, size: nat) {
    k <= |list| && Fits(list, k, size) && (k < |list| ==> !Fits(list, k + 1, size))
  }

  /** A name whose last three characters are dots. */
  function Dots(name: string): string
    requires |name| >= 3
  {
    name[..|name| - 3] + "..."
  }

  predicate AllClean(list: seq<string>) { forall i :: 0 <= i < |list| ==> Clean(list[i]) }

  /** The words shown: all names, or the first k with the last of them dotted. */
  function Words(list: seq<string>, k: nat): (w: seq<string>)
    requires k <= |list| && AllClean(list) && (k < |list| ==> k > 0)
    ensures |w| == k && (forall i :: 0 <= i < k - 1 ==> w[i] == list[i]) && (k == |list| ==> w == list)
    ensures k < |list| ==> var last, name := w[k - 1], list[k - 1];
      |last| == |name| && forall j :: 0 <= j < |name| ==> last[j] == if j < |name| - 3 then name[j] else '.'
  {
    if k == |list| then list else list[..k - 1] + [Dots(list[k - 1])]
  }

  /** The buffer holds these words, single spaces between them, and a NUL after the last. */
  predicate Holds(buf: array<char>, words: seq<string>, size: nat)
    requires size <= buf.Length
    reads buf
  {
    var n := |Spaced(words)|;
    && 0 < n <= size
    && buf[..n - 1] == Spaced(words)[..n - 1]
    && buf[n - 1] == NUL
  }

  // ------------------------------------------------------------------ the program

  datatype Outcome = Einval | Stray | Ok

  method Snprintf(buf: array<char>, pos: nat, size: nat, text: string) returns (rtn: nat)
    requires pos < size <= buf.Length
    modifies buf
    ensures rtn == |text|
    ensures forall i :: 0 <= i < pos || size <= i < buf.Length ==> buf[i] == old(buf[i])
    ensures buf[..pos] == old(buf[..pos])
    ensures var n := if |text| < size - pos then |text| else size - pos - 1;
            buf[pos..pos + n] == text[..n] && buf[pos + n] == NUL
  {
    var i := 0;
    while i < |text| && i < size - pos - 1
      invariant 0 <= i <= |text| && i <= size - pos - 1
      invariant forall j :: 0 <= j < pos || size <= j < buf.Length ==> buf[j] == old(buf[j])
      invariant buf[pos..pos + i] == text[..i]
    {
      buf[pos + i] := text[i];
      i := i + 1;
    }
    buf[pos + i] := NUL;
    rtn := |text|;
  }

  lemma {:induction false} NamesClean(name: Naming, bits: set<nat>, n: nat)
    requires forall b :: Clean(name(b))
    ensures AllClean(Names(name, bits, n))
  {
    if n > 0 { NamesClean(name, bits, n - 1); }
  }

  lemma SpacedMore(list: seq<string>, word: string)
    ensures Spaced(list + [word]) == Spaced(list) + word + " "
  {
    assert (list + [word])[..|list|] == list;
  }

  lemma {:induction false} NamesPrefix(name: Naming, bits: set<nat>, m: nat, n: nat)
    requires m <= n
    ensures var a, b := Names(name, bits, m), Names(name, bits, n); |a| <= |b| && b[..|a|] == a
    decreases n
  {
    if m < n { NamesPrefix(name, bits, m, n - 1); }
  }

  lemma {:induction false} SpacedGrows(list: seq<string>, j: nat, k: nat)
    requires j <= k <= |list|
    ensures |Spaced(list[..j])| <= |Spaced(list[..k])|
    decreases k
  {
    if j < k {
      SpacedGrows(list, j, k - 1);
      assert list[..k] == list[..k - 1] + [list[k - 1]];
      SpacedMore(list[..k - 1], list[k - 1]);
    }
  }

  lemma FirstFits(list: seq<string>, k: nat, size: nat)
    requires 0 < k <= |list| && Fits(list, k, size)
    ensures Fits(list, 1, size)
  {
    SpacedGrows(list, 1, k);
  }

  lemma Overflow(name: Naming, bits: set<nat>, which: nat, n: nat, size: nat)
    requires which in bits && which < n && (forall b :: Clean(name(b)))
    requires |Spaced(Names(name, bits, which))| < size <= |Spaced(Names(name, bits, which))| + |name(which)| + 1
    ensures var list := Names(name, bits, n); var done := Names(name, bits, which); var k := |done|;
      && k < |list| && list[..k] == done && Longest(list, k, size)
      && (k == 0 <==> Spaced(done) == "") && (k == 0 <==> !Fits(list, 1, size))
  {
    var list := Names(name, bits, n);
    var done := Names(name, bits, which);
    var k := |done|;
    NamesPrefix(name, bits, which + 1, n);
    SpacedMore(done, name(which));
    assert list[..k] == done && list[..k + 1] == done + [name(which)];
    if k > 0 { FirstFits(list, k, size); }
  }

  /** Overwriting the three characters before the last space dots the last name and nothing else. */
  lemma DotsInPlace(list: seq<string>, k: nat)
    requires AllClean(list) && 0 < k < |list|
    ensures var s, t := Spaced(list[..k]), Spaced(Words(list, k)); var n := |s|;
      n >= 4 && |t| == n && t == s[..n - 4] + "..." + s[n - 1..]
  {
    var front := list[..k - 1];
    assert list[..k] == front + [list[k - 1]];
    SpacedMore(front, list[k - 1]);
    SpacedMore(front, Dots(list[k - 1]));
  }

  method OverwriteEnd(buf: array<char>, pos: nat, size: nat, ghost list: seq<string>, ghost k: nat)
    requires AllClean(list) && 0 < k < |list| && pos == |Spaced(list[..k])| < size <= buf.Length
    requires buf[..pos] == Spaced(list[..k])
    modifies buf
    ensures forall i :: size <= i < buf.Length ==> buf[i] == old(buf[i])
    ensures pos == |Spaced(Words(list, k))| && buf[..pos] == Spaced(Words(list, k))
  {
    DotsInPlace(list, k);
    buf[pos - 2] := '.';
    buf[pos - 3] := '.';
    buf[pos - 4] := '.';
  }

  lemma AllFit(list: seq<string>, size: nat)
    requires |Spaced(list)| < size
    ensures Longest(list, |list|, size) && (list != [] ==> Fits(list, 1, size))
  {
    assert list[..|list|] == list;
    if list != [] { FirstFits(list, |list|, size); }
  }

  /** The loop over the set bits. A name that does not fit leaves dots at the end of the one before it;
      when there is none before it the dots would be written outside the buffer. */
  method Fill(name: Naming, bits: set<nat>, n: nat, buf: array<char>, size: nat)
      returns (stray: bool, pos: nat, ghost k: nat)
    requires 0 < size <= buf.Length && forall b :: Clean(name(b))
    modifies buf
    ensures forall i :: size <= i < buf.Length ==> buf[i] == old(buf[i])
    ensures var list := Names(name, bits, n);
      && AllClean(list)
      && (stray <==> list != [] && !Fits(list, 1, size))
      && (!stray ==>
           && Longest(list, k, size) && (k < |list| ==> k > 0)
           && pos == |Spaced(Words(list, k))| < size && buf[..pos] == Spaced(Words(list, k)))
  {
    ghost var list := Names(name, bits, n);
    NamesClean(name, bits, n);
    pos := 0;
    for which := 0 to n
      invariant pos == |Spaced(Names(name, bits, which))| < size
      invariant buf[..pos] == Spaced(Names(name, bits, which))
      invariant forall i :: size <= i < buf.Length ==> buf[i] == old(buf[i])
    {
      if which in bits {
        ghost var done := Names(name, bits, which);
        SpacedMore(done, name(which));
        var rtn := Snprintf(buf, pos, size, name(which) + " ");
        assert buf[..pos] == Spaced(done);
        if pos + rtn >= size {
          k := |done|;
          Overflow(name, bits, which, n, size);
          if pos == 0 {
            return true, 0, 0;
          }
          OverwriteEnd(buf, pos, size, list, k);
          return false, pos, k;
        }
        assert buf[..pos + rtn] == buf[..pos] + buf[pos..pos + rtn];
        assert buf[pos..pos + rtn] == name(which) + " ";
        assert Spaced(done) + name(which) + " " == Spaced(done) + (name(which) + " ");
        pos := pos + rtn;
      }
    }
    k := |list|;
    AllFit(list, size);
    return false, pos, k;
  }

  // ------------------------------------------------------------------ the three entry points

  type BitMap = s: set<nat> | forall b :: b in s ==> b < 64 witness {}

  /** The retryable and origin bits, which the plain text leaves out. */
  const RETRYABLE: nat := 61
  const INFO_BITS: set<nat> := {RETRYABLE, 62, 63}

  /** What a caller gets when nothing strayed: the longest list that fits. */
  ghost predicate Told(buf: array<char>, list: seq<string>, k: nat, size: nat)
    requires size <= buf.Length && AllClean(list)
    reads buf
  {
    Longest(list, k, size) && k > 0 && Holds(buf, Words(list, k), size)
  }

  lemma NoneText()
    ensures Spaced(["none"]) == "none "
  {
    assert ["none"][..0] == [];
  }

  method PutNone(buf: array<char>, size: nat) returns (pos: nat)
    requires 4 <= size <= buf.Length
    modifies buf
    ensures pos == 5 && Spaced(["none"]) == "none " && (size >= 5 ==> buf[..4] == "none")
    ensures forall i :: size <= i < buf.Length ==> buf[i] == old(buf[i])
  {
    NoneText();
    pos := Snprintf(buf, 0, size, "none ");
    if size > 5 {
      assert buf[..4] == buf[0..5][..4];
    }
  }

  lemma WordsText(list: seq<string>, k: nat, size: nat, stray: bool)
    requires AllClean(list) && (!stray ==> Longest(list, k, size) && (k < |list| ==> k > 0))
    ensures !stray ==> (|Spaced(Words(list, k))| == 0 <==> list == []) && (list != [] <==> k > 0)
    ensures !stray && list != [] ==> Fits(list, 1, size)
  {
    if !stray && list != [] {
      FirstFits(list, k, size);
      var w := Words(list, k);
      assert w == w[..|w| - 1] + [w[|w| - 1]];
      SpacedMore(w[..|w| - 1], w[|w| - 1]);
    }
  }

  /** With no cause at all the text is "none" and takes five characters. Otherwise the writes stay inside
      the buffer exactly when a bit is left after masking and the first name fits. */
  method CauseMapMasked(causes: BitMap, hidden: set<nat>, buf: array?<char>, size: nat)
      returns (o: Outcome, ghost k: nat)
    requires buf != null ==> size <= buf.Length
    modifies buf
    ensures o.Einval? <==> buf == null || size < 4
    ensures buf != null ==> forall i :: size <= i < buf.Length ==> buf[i] == old(buf[i])
    ensures causes == {} && !o.Einval? ==> (o.Ok? <==> size >= 5) && (o.Ok? ==> Holds(buf, ["none"], size))
    ensures var list := Names(CauseName, causes - hidden, 64);
      causes != {} && !o.Einval? ==>
        && AllClean(list) && (o.Ok? <==> list != [] && Fits(list, 1, size))
        && (o.Ok? ==> Told(buf, list, k, size))
  {
    k := 0;
    if buf == null { return Einval, 0; }
    if size < 4 { return Einval, 0; }
    var pos;
    if causes == {} {
      pos := PutNone(buf, size);
      if pos - 1 >= size { return Stray, 0; }
    } else {
      var stray;
      stray, pos, k := Fill(CauseName, causes - hidden, 64, buf, size);
      WordsText(Names(CauseName, causes - hidden, 64), k, size, stray);
      if stray || pos == 0 { return Stray, 0; }
    }
    buf[pos - 1] := NUL;
    o := Ok;
  }

  method CauseMapStr(causes: BitMap, buf: array?<char>, size: nat) returns (o: Outcome, ghost k: nat)
    requires buf != null ==> size <= buf.Length
    modifies buf
    ensures o.Einval? <==> buf == null || size < 4
    ensures buf != null ==> forall i :: size <= i < buf.Length ==> buf[i] == old(buf[i])
    ensures causes == {} && !o.Einval? ==> (o.Ok? <==> size >= 5) && (o.Ok? ==> Holds(buf, ["none"], size))
    ensures var list := Names(CauseName, causes - {61, 62, 63}, 64);
      causes != {} && !o.Einval? ==>
        && AllClean(list) && (o.Ok? <==> list != [] && Fits(list, 1, size))
        && (o.Ok? ==> Told(buf, list, k, size))
  {
    o, k := CauseMapMasked(causes, INFO_BITS, buf, size);
  }

  method CauseMapWithInfoStr(causes: BitMap, buf: array?<char>, size: nat) returns (o: Outcome, ghost k: nat)
    requires buf != null ==> size <= buf.Length
    modifies buf
    ensures o.Einval? <==> buf == null || size < 4
    ensures buf != null ==> forall i :: size <= i < buf.Length ==> buf[i] == old(buf[i])
    ensures causes == {} && !o.Einval? ==> (o.Ok? <==> size >= 5) && (o.Ok? ==> Holds(buf, ["none"], size))
    ensures var list := Names(CauseName, causes, 64);
      causes != {} && !o.Einval? ==>
        && AllClean(list) && (o.Ok? <==> list != [] && Fits(list, 1, size))
        && (o.Ok? ==> Told(buf, list, k, size))
  {
    assert causes - {} == causes;
    o, k := CauseMapMasked(causes, {}, buf, size);
  }

  /** Bits from 38 on have no name; without a named bit the text is "none". */
  method InfoMapStr(infos: BitMap, buf: array?<char>, size: nat) returns (o: Outcome, ghost k: nat)
    requires buf != null ==> size <= buf.Length
    modifies buf
    ensures o.Einval? <==> buf == null || size < 10
    ensures buf != null ==> forall i :: size <= i < buf.Length ==> buf[i] == old(buf[i])
    ensures var list := Names(InfoName, infos, 38);
      !o.Einval? ==>
        && AllClean(list) && (o.Ok? <==> list == [] || Fits(list, 1, size))
        && (o.Ok? ==> if list == [] then Holds(buf, ["none"], size) else Told(buf, list, k, size))
  {
    k := 0;
    if buf == null { return Einval, 0; }
    if size < 10 { return Einval, 0; }
    var stray, pos;
    stray, pos, k := Fill(InfoName, infos, 38, buf, size);
    WordsText(Names(InfoName, infos, 38), k, size, stray);
    if stray { return Stray, 0; }
    if pos == 0 {
      pos := PutNone(buf, size);
    }
    buf[pos - 1] := NUL;
    o := Ok;
  }

  lemma {:induction false} SomeName(name: Naming, bits: set<nat>, n: nat)
    requires exists b :: b in bits && b < n
    ensures Names(name, bits, n) != []
  {
    if n - 1 !in bits {
      SomeName(name, bits, n - 1);
    }
  }

  lemma {:induction false} NameAt(name: Naming, bits: set<nat>, n: nat, i: nat) returns (b: nat)
    requires i < |Names(name, bits, n)|
    ensures b < n && b in bits && Names(name, bits, n)[i] == name(b)
  {
    if n - 1 in bits && i == |Names(name, bits, n)| - 1 {
      b := n - 1;
    } else {
      b := NameAt(name, bits, n - 1, i);
    }
  }

  lemma OneName(list: seq<string>)
    requires list != []
    ensures |Spaced(list[..1])| == |list[0]| + 1
  {
    assert list[..1] == [] + [list[0]];
    SpacedMore([], list[0]);
  }

  lemma ErrorFits(errors: set<nat>, n: nat, size: nat)
    requires size >= 128
    ensures var list := Names(ErrorName, errors, n); list != [] ==> Fits(list, 1, size)
  {
    var list := Names(ErrorName, errors, n);
    if list != [] {
      var b := NameAt(ErrorName, errors, n, 0);
      OneName(list);
    }
  }

  /** The least size allowed here is longer than any name, so nothing ever strays. */
  method ErrorMapStr(errors: BitMap, buf: array?<char>, size: nat) returns (o: Outcome, ghost k: nat)
    requires buf != null ==> size <= buf.Length
    modifies buf
    ensures o.Einval? <==> buf == null || size < 128
    ensures buf != null ==> forall i :: size <= i < buf.Length ==> buf[i] == old(buf[i])
    ensures var list := Names(ErrorName, errors, 64);
      !o.Einval? ==>
        && AllClean(list) && o.Ok?
        && if errors == {} then Holds(buf, ["none"], size) else Told(buf, list, k, size)
  {
    k := 0;
    if buf == null { return Einval, 0; }
    if size < 128 { return Einval, 0; }
    NamesClean(ErrorName, errors, 64);
    var pos;
    if errors == {} {
      pos := PutNone(buf, size);
    } else {
      var stray;
      stray, pos, k := Fill(ErrorName, errors, 64, buf, size);
      ghost var list := Names(ErrorName, errors, 64);
      SomeName(ErrorName, errors, 64);
      ErrorFits(errors, 64, size);
      WordsText(list, k, size, stray);
    }
    buf[pos - 1] := NUL;
    o := Ok;
  }

  /** A buffer longer than the longest name and its space never sees a stray write, provided some bit is
      left to name. */
  lemma LongEnough(causes: set<nat>, hidden: set<nat>, infos: set<nat>, size: nat)
    requires size >= 20
    ensures var list := Names(CauseName, causes - hidden, 64); list != [] ==> Fits(list, 1, size)
    ensures var list := Names(InfoName, infos, 38); list != [] ==> Fits(list, 1, size)
  {
    var list := Names(CauseName, causes - hidden, 64);
    if list != [] {
      var b := NameAt(CauseName, causes - hidden, 64, 0);
      OneName(list);
    }
    list := Names(InfoName, infos, 38);
    if list != [] {
      var b := NameAt(InfoName, infos, 38, 0);
      OneName(list);
    }
  }

  lemma {:induction false} NoBitsNoNames(name: Naming, bits: set<nat>, n: nat)
    requires bits == {}
    ensures Names(name, bits, n) == []
  {
    if n > 0 { NoBitsNoNames(name, bits, n - 1); }
  }

  lemma {:induction false} OneBitOneName(name: Naming, bit: nat, n: nat)
    ensures Names(name, {bit}, n) == if bit < n then [name(bit)] else []
  {
    if n > 0 { OneBitOneName(name, bit, n - 1); }
  }

  /** In the least buffers allowed even the shortest cause and a link information name do not fit, and a
      map of nothing but retryable leaves no name. */
  lemma StraysHappen()
    ensures Names(CauseName, {RETRYABLE} - INFO_BITS, 64) == []
    ensures var list := Names(CauseName, {1} - INFO_BITS, 64); list == ["ucw"] && !Fits(list, 1, 4)
    ensures var list := Names(InfoName, {0}, 38); list == ["media-check"] && !Fits(list, 1, 10)
  {
    NoBitsNoNames(CauseName, {RETRYABLE} - INFO_BITS, 64);
    assert {1} - INFO_BITS == {1};
    OneBitOneName(CauseName, 1, 64);
    OneBitOneName(InfoName, 0, 38);
    OneName(["ucw"]);
    OneName(["media-check"]);
  }

  // ------------------------------------------------------------------ reading the text back

  /** The words of a text in which each is followed by a space. */
  function Parsed(text: string, word: string): seq<string> {
    if text == "" then []
    else if text[0] == ' ' then [word] + Parsed(text[1..], "")
    else Parsed(text[1..], word + [text[0]])
  }

  lemma {:induction false} ParsedWord(done: string, rest: string, text: string)
    requires ' ' !in rest
    ensures Parsed(rest + " " + text, done) == [done + rest] + Parsed(text, "")
    decreases |rest|
  {
    var all := rest + " " + text;
    if rest == "" {
      assert all[1..] == text && all[0] == ' ';
      assert done + rest == done;
    } else {
      assert all[0] == rest[0] && all[1..] == rest[1..] + " " + text;
      ParsedWord(done + [rest[0]], rest[1..], text);
      assert done + [rest[0]] + rest[1..] == done + rest;
    }
  }

  lemma {:induction false} SpacedFront(list: seq<string>)
    requires list != []
    ensures Spaced(list) == list[0] + " " + Spaced(list[1..])
    decreases |list|
  {
    var n := |list| - 1;
    if n == 0 {
      assert list[..0] == [] && list[1..] == [];
    } else {
      SpacedFront(list[..n]);
      assert list[..n][1..] == list[1..][..n - 1];
      assert Spaced(list[1..]) == Spaced(list[1..][..n - 1]) + list[n] + " ";
    }
  }

  lemma {:induction false} ParsedSpaced(words: seq<string>)
    requires AllClean(words)
    ensures Parsed(Spaced(words), "") == words
    decreases |words|
  {
    if words != [] {
      SpacedFront(words);
      ParsedWord("", words[0], Spaced(words[1..]));
      assert "" + words[0] == words[0];
      ParsedSpaced(words[1..]);
      assert words == [words[0]] + words[1..];
    }
  }

  lemma WordsClean(list: seq<string>, k: nat)
    requires AllClean(list) && k <= |list| && (k < |list| ==> k > 0)
    ensures AllClean(Words(list, k))
  {
    if k < |list| {
      var name := list[k - 1];
      forall i | 0 <= i < |Dots(name)| ensures Dots(name)[i] != ' ' && Dots(name)[i] != NUL {
        assert i < |name| - 3 ==> Dots(name)[i] == name[i] && name[i] in name;
      }
    }
  }

  lemma {:induction false} SpacedClean(words: seq<string>)
    requires AllClean(words)
    ensures NUL !in Spaced(words)
    ensures words != [] ==> |Spaced(words)| > 0 && Spaced(words)[|Spaced(words)| - 1] == ' '
  {
    if words != [] {
      SpacedClean(words[..|words| - 1]);
    }
  }

  /** The words told can be read back from the text: all the names, or the leading ones with the last
      of them dotted; and the text ends where the caller finds the first NUL. */
  lemma TextReadsBack(buf: array<char>, list: seq<string>, k: nat, size: nat)
    requires size <= buf.Length && AllClean(list) && Told(buf, list, k, size)
    ensures exists n: nat ::
              n < size && buf[n] == NUL && NUL !in buf[..n] && Parsed(buf[..n] + " ", "") == Words(list, k)
  {
    var words := Words(list, k);
    WordsClean(list, k);
    ParsedSpaced(words);
    SpacedClean(words);
    var n := |Spaced(words)| - 1;
    assert buf[..n] == Spaced(words)[..n];
    assert Spaced(words) == Spaced(words)[..n] + " ";
  }

  // ------------------------------------------------------------------ reading the bits back

  /** The cause a word names, by its length and a character or two. */
  function CauseOf(word: string): nat {
    match |word|
    case 3 =>
      if word[0] == 'u' then 1 else 24
    case 6 =>
      if word[0] == 'c' && word[5] == 'g' then 8
      else if word[0] == 't' && word[5] == 'l' then 32
      else if word[0] == 'r' && word[5] == 'l' then 33
      else if word[0] == 't' && word[5] == 's' then 34 else 35
    case 7 =>
      if word[0] == 't' then 10 else 13
    case 8 =>
      if word[0] == 'u' then 5
      else if word[0] == 'c' then 11 else 23
    case 9 =>
      if word[0] == 'l' && word[1] == 'c' then 2
      else if word[0] == 'r' && word[1] == 'm' then 3
      else if word[0] == 'l' && word[1] == 'i' then 4
      else if word[0] == 'a' && word[1] == 'n' then 17
      else if word[0] == 'p' && word[1] == 'c' then 18
      else if word[0] == 'm' && word[1] == 'e' then 25
      else if word[0] == 'r' && word[1] == 'e' then 61 else 63
    case 10 =>
      if word[0] == 's' then 19 else 26
    case 11 =>
      if word[0] == 'i' then 9
      else if word[0] == 'm' then 28
      else if word[0] == 'u' then 29 else 31
    case 12 =>
      if word[0] == 'a' then 7
      else if word[0] == 'u' then 16 else 62
    case 13 =>
      if word[7] == 'c' then 20
      else if word[7] == 's' then 21 else 27
    case 14 =>
      if word[0] == 'd' then 14 else 22
    case 15 => 6
    case 17 =>
      if word[0] == 'l' then 15 else 30
    case _ => 64
  }

  /** The link information a word names. */
  function InfoOf(word: string): nat {
    match |word|
    case 6 =>
      if word[0] == 'p' && word[4] == 'o' then 10
      else if word[0] == 'f' && word[4] == 'o' then 12
      else if word[0] == 'm' && word[4] == 'r' then 21 else 22
    case 7 =>
      if word[0] == 'l' then 18 else 26
    case 8 =>
      if word[0] == 'm' then 1
      else if word[0] == 'a' then 25 else 37
    case 9 =>
      if word[0] == 's' && word[1] == 'e' then 4
      else if word[0] == 'p' && word[1] == 'c' then 9
      else if word[0] == 'f' && word[1] == 'e' then 11
      else if word[0] == 'l' && word[1] == 'i' then 14 else 29
    case 10 => 27
    case 11 =>
      if word[4] == 'a' then 0
      else if word[4] == 'r' then 32 else 35
    case 12 =>
      if word[3] == 'd' && word[7] == 's' then 2
      else if word[3] == 'd' && word[7] == 'c' then 3
      else if word[3] == 'k' && word[7] == '-' then 17
      else if word[3] == 'b' && word[7] == '-' then 23
      else if word[3] == 'n' && word[7] == '-' then 24 else 31
    case 13 =>
      if word[4] == 'l' then 8
      else if word[4] == '-' then 13
      else if word[4] == 'r' then 19 else 20
    case 14 =>
      if word[4] == '-' then 15
      else if word[4] == 's' then 28 else 36
    case 15 =>
      if word[0] == 'p' then 6 else 16
    case 16 => 7
    case 17 =>
      if word[5] == 'e' then 30 else 33
    case 18 =>
      if word[0] == 's' then 5 else 34
    case _ => 64
  }

  /** The media error a word names. */
  function ErrorOf(word: string): nat {
    match |word|
    case 7 => 31
    case 17 => 0
    case 20 => 2
    case 21 => 3
    case 23 =>
      if word[5] == 'd' then 4 else 5
    case 24 => 1
    case _ => 64
  }

  /** The bits that have a name of their own. */
  predicate NamedCause(bit: nat) { (1 <= bit <= 35 && bit != 12) || 61 <= bit <= 63 }

  predicate NamedError(bit: nat) { bit <= 5 || bit == 31 }

  lemma CauseOfLow(bit: nat)
    requires NamedCause(bit) && bit <= 16
    ensures CauseOf(CauseName(bit)) == bit
  {
  }

  lemma CauseOfMiddle(bit: nat)
    requires NamedCause(bit) && 17 <= bit <= 24
    ensures CauseOf(CauseName(bit)) == bit
  {
  }

  lemma CauseOfHigh(bit: nat)
    requires NamedCause(bit) && 25 <= bit
    ensures CauseOf(CauseName(bit)) == bit
  {
  }

  /** No two named causes share a name. */
  lemma CauseOfName(bit: nat)
    requires NamedCause(bit)
    ensures CauseOf(CauseName(bit)) == bit
  {
    if bit <= 16 { CauseOfLow(bit); } else if bit <= 24 { CauseOfMiddle(bit); } else { CauseOfHigh(bit); }
  }

  lemma InfoOfLow(bit: nat)
    requires bit <= 18
    ensures InfoOf(InfoName(bit)) == bit
  {
  }

  lemma InfoOfHigh(bit: nat)
    requires 19 <= bit < 38
    ensures InfoOf(InfoName(bit)) == bit
  {
  }

  /** Nor do two kinds of link information. */
  lemma InfoOfName(bit: nat)
    requires bit < 38
    ensures InfoOf(InfoName(bit)) == bit
  {
    if bit <= 18 { InfoOfLow(bit); } else { InfoOfHigh(bit); }
  }

  /** Nor two media errors. */
  lemma ErrorOfName(bit: nat)
    requires NamedError(bit)
    ensures ErrorOf(ErrorName(bit)) == bit
  {
  }

  predicate Tell(of: string -> nat, list: seq<string>, bit: nat) { exists i :: 0 <= i < |list| && of(list[i]) == bit }

  lemma {:induction false} NamesTell(name: Naming, of: string -> nat, bits: set<nat>, n: nat, bit: nat)
    requires forall b :: b in bits && b < n ==> of(name(b)) == b
    ensures Tell(of, Names(name, bits, n), bit) <==> bit in bits && bit < n
  {
    if n > 0 {
      NamesTell(name, of, bits, n - 1, bit);
      var list, before := Names(name, bits, n), Names(name, bits, n - 1);
      if n - 1 in bits {
        assert list[|before|] == name(n - 1);
        assert forall i :: 0 <= i < |before| ==> list[i] == before[i];
      }
    }
  }

  /** A text in which every bit has a name and none is cut off tells exactly which bits there are. */
  lemma ReadsBack(buf: array<char>, name: Naming, of: string -> nat, bits: set<nat>, n: nat, k: nat, size: nat)
    requires size <= buf.Length && AllClean(Names(name, bits, n))
    requires Told(buf, Names(name, bits, n), k, size) && k == |Names(name, bits, n)|
    requires forall b :: b in bits ==> b < n && of(name(b)) == b
    ensures exists end: nat :: end < size && buf[end] == NUL && NUL !in buf[..end]
              && forall bit: nat :: bit in bits <==> Tell(of, Parsed(buf[..end] + " ", ""), bit)
  {
    var list := Names(name, bits, n);
    TextReadsBack(buf, list, k, size);
    var end: nat :| && end < size && buf[end] == NUL && NUL !in buf[..end]
                    && Parsed(buf[..end] + " ", "") == Words(list, k);
    forall bit: nat ensures bit in bits <==> Tell(of, Parsed(buf[..end] + " ", ""), bit) {
      NamesTell(name, of, bits, n, bit);
    }
  }

  /** So the text of a cause map, an information map or an error map gives the map back. */
  lemma CausesReadBack(buf: array<char>, causes: set<nat>, k: nat, size: nat)
    requires size <= buf.Length && AllClean(Names(CauseName, causes, 64))
    requires Told(buf, Names(CauseName, causes, 64), k, size) && k == |Names(CauseName, causes, 64)|
    requires forall b :: b in causes ==> NamedCause(b)
    ensures exists end: nat :: end < size && buf[end] == NUL && NUL !in buf[..end]
              && forall bit: nat :: bit in causes <==> Tell(CauseOf, Parsed(buf[..end] + " ", ""), bit)
  {
    forall b | b in causes ensures CauseOf(CauseName(b)) == b {
      CauseOfName(b);
    }
    ReadsBack(buf, CauseName, CauseOf, causes, 64, k, size);
  }

  lemma InfosReadBack(buf: array<char>, infos: set<nat>, k: nat, size: nat)
    requires size <= buf.Length && AllClean(Names(InfoName, infos, 38))
    requires Told(buf, Names(InfoName, infos, 38), k, size) && k == |Names(InfoName, infos, 38)|
    requires forall b :: b in infos ==> b < 38
    ensures exists end: nat :: end < size && buf[end] == NUL && NUL !in buf[..end]
              && forall bit: nat :: bit in infos <==> Tell(InfoOf, Parsed(buf[..end] + " ", ""), bit)
  {
    forall b | b in infos ensures InfoOf(InfoName(b)) == b {
      InfoOfName(b);
    }
    ReadsBack(buf, InfoName, InfoOf, infos, 38, k, size);
  }

  lemma ErrorsReadBack(buf: array<char>, errors: set<nat>, k: nat, size: nat)
    requires size <= buf.Length && AllClean(Names(ErrorName, errors, 64))
    requires Told(buf, Names(ErrorName, errors, 64), k, size) && k == |Names(ErrorName, errors, 64)|
    requires forall b :: b in errors ==> NamedError(b)
    ensures exists end: nat :: end < size && buf[end] == NUL && NUL !in buf[..end]
              && forall bit: nat :: bit in errors <==> Tell(ErrorOf, Parsed(buf[..end] + " ", ""), bit)
  {
    forall b | b in errors ensures ErrorOf(ErrorName(b)) == b {
      ErrorOfName(b);
    }
    ReadsBack(buf, ErrorName, ErrorOf, errors, 64, k, size);
  }
}
