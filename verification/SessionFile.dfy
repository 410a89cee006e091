/** The text format in which a session is stored, and reading it back. */
module SessionFile {
  import opened Text

  datatype Session = Session(id: string, lastAccess: int, expiration: int, data: map<string, string>)

  type Entry = (string, string)

  const MIN_LL: int := -0x8000_0000_0000_0000
  const MAX_LL: int := 0x7FFF_FFFF_FFFF_FFFF

  // ---------- Numbers ----------

  function Digits(n: nat): string {
    var d := [('0' as int + n % 10) as char];
    if n < 10 then d else Digits(n / 10) + d
  }

  /** A 64-bit count, as the stream prints it. */
  function Print(n: int): string { if n < 0 then "-" + Digits(-n) else Digits(n) }

  predicate IsDigit(c: char) { '0' <= c <= '9' }
  function DigitVal(c: char): nat requires IsDigit(c) { c as int - '0' as int }
  predicate IsSpace(c: char) { c == ' ' || 9 <= c as int <= 13 }

  /** The digits from i on, added to the number read so far; anything else ends it. */
  function ReadDigits(s: string, i: nat, n: nat): nat
    requires i <= |s|
    decreases |s| - i
  {
    if i < |s| && IsDigit(s[i]) then ReadDigits(s, i + 1, 10 * n + DigitVal(s[i])) else n
  }

  /** stoll: blanks, a sign, digits; it throws without a digit or out of range. */
  function ReadNumber(s: string): Option<int> {
    if s != "" && IsSpace(s[0]) then ReadNumber(s[1..])
    else
      var neg := s != "" && s[0] == '-';
      var i: nat := if s != "" && (s[0] == '-' || s[0] == '+') then 1 else 0;
      if i == |s| || !IsDigit(s[i]) then None
      else
        var n: int := ReadDigits(s, i, 0);
        var v: int := if neg then -n else n;
        if MIN_LL <= v <= MAX_LL then Some(v) else None
  }

  lemma {:induction false} ReadPrintedDigits(pre: string, n: nat, acc: nat)
    ensures ReadDigits(pre + Digits(n), |pre|, acc) == acc * Pow10(|Digits(n)|) + n
    ensures |Digits(n)| > 0 && IsDigit(Digits(n)[0])
    decreases n
  {
    var d := ('0' as int + n % 10) as char;
    if n < 10 {
      var s := pre + [d];
      assert ReadDigits(s, |s|, 10 * acc + n) == 10 * acc + n;
    } else {
      var front := Digits(n / 10);
      var s := pre + (front + [d]);
      ReadPrintedDigits(pre, n / 10, acc);
      DigitsThen(pre, n / 10, [d], acc);
      assert ReadDigits(s, |pre| + |front|, acc * Pow10(|front|) + n / 10)
          == 10 * (acc * Pow10(|front|) + n / 10) + n % 10;
      Scale(acc, Pow10(|front|), n);
    }
  }

  function Pow10(k: nat): nat { if k == 0 then 1 else 10 * Pow10(k - 1) }

  lemma Scale(acc: nat, p: nat, n: nat)
    ensures 10 * (acc * p + n / 10) + n % 10 == acc * (10 * p) + n
  {}

  /** All digits of a printed number are digits, so reading goes on behind them. */
  lemma {:induction false} DigitsThen(pre: string, n: nat, rest: string, acc: nat)
    ensures ReadDigits(pre + (Digits(n) + rest), |pre|, acc)
         == ReadDigits(pre + (Digits(n) + rest), |pre| + |Digits(n)|, ReadDigits(pre + Digits(n), |pre|, acc))
    decreases n
  {
    AllDigits(n);
    Skip(pre, Digits(n), rest, 0, acc);
  }

  lemma {:induction false} AllDigits(n: nat)
    ensures forall k :: 0 <= k < |Digits(n)| ==> IsDigit(Digits(n)[k])
    decreases n
  {
    if n >= 10 { AllDigits(n / 10); }
  }

  lemma {:induction false} Skip(pre: string, ds: string, rest: string, i: nat, acc: nat)
    requires i <= |ds| && forall k :: 0 <= k < |ds| ==> IsDigit(ds[k])
    ensures ReadDigits(pre + (ds + rest), |pre| + i, acc)
         == ReadDigits(pre + (ds + rest), |pre| + |ds|, ReadDigits(pre + ds, |pre| + i, acc))
    decreases |ds| - i
  {
    if i < |ds| {
      assert (pre + (ds + rest))[|pre| + i] == ds[i] && (pre + ds)[|pre| + i] == ds[i];
      Skip(pre, ds, rest, i + 1, 10 * acc + DigitVal(ds[i]));
    }
  }

  /** Printed numbers are read back, and those that do not fit 64 bits are refused. */
  lemma ReadPrinted(n: int)
    ensures ReadNumber(Print(n)) == if MIN_LL <= n <= MAX_LL then Some(n) else None
  {
    if n < 0 {
      ReadPrintedDigits("-", -n, 0);
    } else {
      ReadPrintedDigits("", n, 0);
      assert "" + Digits(n) == Digits(n);
    }
  }

  // ---------- Lines ----------

  const LF: string := "\n"

  function Lines(lines: seq<string>): string {
    if lines == [] then "" else lines[0] + (LF + Lines(lines[1..]))
  }

  lemma {:induction false} LinesAppend(a: seq<string>, b: seq<string>)
    ensures Lines(a + b) == Lines(a) + Lines(b)
  {
    if a == [] {
      assert a + b == b;
    } else {
      LinesAppend(a[1..], b);
      assert (a + b)[1..] == a[1..] + b;
      assert a[0] + (LF + (Lines(a[1..]) + Lines(b))) == (a[0] + (LF + Lines(a[1..]))) + Lines(b);
    }
  }

  lemma GetLine(pre: string, line: string, more: string)
    requires '\n' !in line
    ensures var s, e := pre + (line + (LF + more)), |pre| + |line|;
            && e < |s| && IndexOf(s, '\n', |pre|) == e && s[|pre|..e] == line
            && s == (pre + (line + LF)) + more && |pre + (line + LF)| == e + 1
  {
    var s, e := pre + (line + (LF + more)), |pre| + |line|;
    assert s[|pre|..e] == line && s[e] == '\n';
    IndexOfIs(s, '\n', |pre|, e);
  }

  // ---------- Writing ----------

  function DataLine(e: Entry): string { e.0 + (":" + e.1) }

  function DataLines(entries: seq<Entry>): (r: seq<string>)
    ensures |r| == |entries|
  {
    if entries == [] then [] else [DataLine(entries[0])] + DataLines(entries[1..])
  }

  function HeadLines(s: Session): seq<string> {
    ["SESSION_ID:" + s.id, "LAST_ACCESS:" + Print(s.lastAccess), "EXPIRATION:" + Print(s.expiration), "DATA_START"]
  }

  function FileText(s: Session, entries: seq<Entry>): string {
    Lines(HeadLines(s) + (DataLines(entries) + ["DATA_END"]))
  }

  function ToMap(m: map<string, string>, entries: seq<Entry>): map<string, string>
    decreases |entries|
  {
    if entries == [] then m else ToMap(m[entries[0].0 := entries[0].1], entries[1..])
  }

  /** The entries are the session's data in some order. */
  predicate Enumerates(entries: seq<Entry>, data: map<string, string>) {
    ToMap(map[], entries) == data && forall i :: 0 <= i < |entries| ==> entries[i].0 in data && data[entries[i].0] == entries[i].1
  }

  /** writeSessionToFile: the loop over the data map, in the map's iteration order. */
  method WriteSession(s: Session, entries: seq<Entry>) returns (file: string)
    requires Enumerates(entries, s.data)
    ensures file == FileText(s, entries)
  {
    file := "SESSION_ID:" + s.id + LF;
    file := file + ("LAST_ACCESS:" + Print(s.lastAccess) + LF);
    file := file + ("EXPIRATION:" + Print(s.expiration) + LF);
    file := file + "DATA_START" + LF;
    HeadText(s);
    ghost var head := file;
    assert head + Lines([]) == head;
    for i := 0 to |entries|
      invariant file == head + Lines(DataLines(entries)[..i])
    {
      var pair := entries[i];
      NextDataLine(entries, i, head);
      file := file + (pair.0 + ":" + pair.1 + LF);
    }
    assert DataLines(entries)[..|entries|] == DataLines(entries);
    Closing(head, DataLines(entries), HeadLines(s));
    file := file + ("DATA_END" + LF);
  }

  lemma HeadText(s: Session)
    ensures (("SESSION_ID:" + s.id + LF) + ("LAST_ACCESS:" + Print(s.lastAccess) + LF) + ("EXPIRATION:" + Print(s.expiration) + LF))
            + "DATA_START" + LF == Lines(HeadLines(s))
  {
    var a, b, c := "SESSION_ID:" + s.id, "LAST_ACCESS:" + Print(s.lastAccess), "EXPIRATION:" + Print(s.expiration);
    FourLines(a, b, c, "DATA_START");
  }

  lemma FourLines(a: string, b: string, c: string, d: string)
    ensures ((a + LF) + (b + LF) + (c + LF)) + d + LF == Lines([a, b, c, d])
  {
    assert [a, b, c, d][1..] == [b, c, d] && [b, c, d][1..] == [c, d] && [c, d][1..] == [d] && [d][1..] == [];
    assert Lines([d]) == d + (LF + "");
    assert Lines([c, d]) == c + (LF + Lines([d]));
    assert Lines([b, c, d]) == b + (LF + Lines([c, d]));
  }

  lemma {:induction false} DataLineAt(entries: seq<Entry>, i: nat)
    requires i < |entries|
    ensures DataLines(entries)[i] == DataLine(entries[i])
  {
    if i > 0 { DataLineAt(entries[1..], i - 1); }
  }

  lemma DataLinesUpTo(entries: seq<Entry>, i: nat)
    requires i < |entries|
    ensures DataLines(entries)[..i + 1] == DataLines(entries)[..i] + [DataLine(entries[i])]
  {
    DataLineAt(entries, i);
    hide *;
    UpTo(DataLines(entries), i);
  }

  lemma UpTo(lines: seq<string>, i: nat)
    requires i < |lines|
    ensures lines[..i + 1] == lines[..i] + [lines[i]]
  {}

  lemma NextDataLine(entries: seq<Entry>, i: nat, head: string)
    requires i < |entries|
    ensures (head + Lines(DataLines(entries)[..i])) + (entries[i].0 + ":" + entries[i].1 + LF)
         == head + Lines(DataLines(entries)[..i + 1])
  {
    hide Lines, DataLines;
    var done, line := DataLines(entries)[..i], DataLine(entries[i]);
    DataLinesUpTo(entries, i);
    LinesAppend(done, [line]);
    OneLineText(line);
    assert entries[i].0 + ":" + entries[i].1 + LF == line + LF;
    Assoc(head, Lines(done), line + LF);
  }

  lemma OneLineText(line: string)
    ensures Lines([line]) == line + LF
  {
    assert [line][1..] == [] && LF + "" == LF;
  }

  lemma Closing(head: string, ds: seq<string>, hs: seq<string>)
    requires head == Lines(hs)
    ensures (head + Lines(ds)) + ("DATA_END" + LF) == Lines(hs + (ds + ["DATA_END"]))
  {
    LinesAppend(ds, ["DATA_END"]);
    LinesAppend(hs, ds + ["DATA_END"]);
    OneLineText("DATA_END");
    Assoc(head, Lines(ds), "DATA_END" + LF);
  }

  // ---------- Reading ----------

  datatype Reading = Reading(s: Session, inData: bool)

  /** The effect of a line that is neither DATA_START nor DATA_END; None is an
      exception thrown by stoll. */
  function ReadLine(r: Reading, line: string): Option<Reading> {
    var colon := IndexOf(line, ':', 0);
    if colon == |line| then Some(r)
    else
      var key, value := line[..colon], line[colon + 1..];
      if r.inData then Some(r.(s := r.s.(data := r.s.data[key := value])))
      else if key == "SESSION_ID" then Some(r.(s := r.s.(id := value)))
      else if key == "LAST_ACCESS" then
        match ReadNumber(value) case None => None case Some(n) => Some(r.(s := r.s.(lastAccess := n)))
      else if key == "EXPIRATION" then
        match ReadNumber(value) case None => None case Some(n) => Some(r.(s := r.s.(expiration := n)))
      else Some(r)
  }

  function ReadFrom(file: string, pos: nat, r: Reading): Option<Session>
    requires pos <= |file|
    decreases |file| - pos
  {
    if pos == |file| then Some(r.s)
    else
      var e := IndexOf(file, '\n', pos);
      var line, next := file[pos..e], if e < |file| then e + 1 else e;
      if line == "DATA_START" then ReadFrom(file, next, r.(inData := true))
      else if line == "DATA_END" then Some(r.s)
      else
        match ReadLine(r, line)
        case None => None
        case Some(r') => ReadFrom(file, next, r')
  }

  /** What is there before the first line; the expiration is not initialized. */
  function Blank(uninitialized: int): Reading { Reading(Session("", 0, uninitialized, map[]), false) }

  /** The object built from what was read: setting an entry touches the session, and a
      time of 0 is not restored, so both leave the time of the reading. */
  function Rebuilt(s: Session, now: int): Session {
    if s.data != map[] || s.lastAccess == 0 then s.(lastAccess := now) else s
  }

  /** A file without an id, or with a number that does not read, gives no session. */
  function Load(file: string, now: int, uninitialized: int): Option<Session> {
    match ReadFrom(file, 0, Blank(uninitialized))
    case None => None
    case Some(s) => if s.id == "" then None else Some(Rebuilt(s, now))
  }

  /** readSessionFromFile: the getline loop. */
  method ReadSession(file: string, now: int, uninitialized: int) returns (r: Option<Session>)
    ensures r == Load(file, now, uninitialized)
  {
    hide ReadLine;
    var st, pos := Blank(uninitialized), 0;
    while pos < |file|
      invariant pos <= |file|
      invariant ReadFrom(file, 0, Blank(uninitialized)) == ReadFrom(file, pos, st)
    {
      var e := IndexOf(file, '\n', pos);
      var line := file[pos..e];
      pos := if e < |file| then e + 1 else e;
      if line == "DATA_START" {
        st := st.(inData := true);
      } else if line == "DATA_END" {
        break;
      } else {
        var next := ReadLine(st, line);
        if next.None? { return None; }
        st := next.value;
      }
    }
    if st.s.id == "" { return None; }
    var session := st.s;
    if session.lastAccess == 0 { session := session.(lastAccess := now); }
    if session.data != map[] { session := session.(lastAccess := now); }
    return Some(session);
  }

  // ---------- Round trip ----------

  predicate StorableKey(k: string) { ':' !in k && '\n' !in k }
  predicate StorableValue(v: string) { '\n' !in v }

  /** Keys without ':' and newline, values without newline. */
  predicate Storable(data: map<string, string>) {
    forall k :: k in data ==> StorableKey(k) && StorableValue(data[k])
  }

  function Stored(r: Reading, e: Entry): Reading { r.(s := r.s.(data := r.s.data[e.0 := e.1])) }

  lemma ReadDataLine(r: Reading, e: Entry)
    requires r.inData && StorableKey(e.0) && StorableValue(e.1)
    ensures ReadLine(r, DataLine(e)) == Some(Stored(r, e))
    ensures '\n' !in DataLine(e) && ':' in DataLine(e)
  {
    assert DataLine(e) == e.0 + [':'] + e.1;
    IndexOfPrefix(e.0, ':', e.1);
    assert DataLine(e)[..|e.0|] == e.0 && DataLine(e)[|e.0| + 1..] == e.1;
    assert DataLine(e)[|e.0|] == ':';
  }

  lemma NotMarker(line: string)
    requires ':' in line
    ensures line != "DATA_START" && line != "DATA_END"
  {}

  lemma ReadOneDataLine(pre: string, e: Entry, more: string, r: Reading)
    requires r.inData && StorableKey(e.0) && StorableValue(e.1)
    ensures (
        var p := pre + (DataLine(e) + LF);
        ReadFrom(pre + (DataLine(e) + (LF + more)), |pre|, r) == ReadFrom(p + more, |p|, Stored(r, e)))
  {
    hide ReadLine, IndexOf, DataLine, StorableKey, StorableValue;
    ReadDataLine(r, e);
    NotMarker(DataLine(e));
    GetLine(pre, DataLine(e), more);
  }

  lemma ReadEnd(pre: string, more: string, r: Reading)
    ensures ReadFrom(pre + ("DATA_END" + (LF + more)), |pre|, r) == Some(r.s)
  {
    hide ReadLine, IndexOf;
    GetLine(pre, "DATA_END", more);
  }

  lemma {:induction false} ReadDataLines(pre: string, entries: seq<Entry>, r: Reading)
    requires r.inData && forall i :: 0 <= i < |entries| ==> StorableKey(entries[i].0) && StorableValue(entries[i].1)
    ensures ReadFrom(pre + Lines(DataLines(entries) + ["DATA_END"]), |pre|, r)
         == Some(r.s.(data := ToMap(r.s.data, entries)))
    decreases |entries|
  {
    hide ReadFrom, DataLine, StorableKey, StorableValue;
    var ls := DataLines(entries) + ["DATA_END"];
    if entries == [] {
      assert ls == ["DATA_END"] && ls[1..] == [];
      ReadEnd(pre, "", r);
    } else {
      var line, tail := DataLine(entries[0]), DataLines(entries[1..]) + ["DATA_END"];
      assert ls[0] == line && ls[1..] == tail;
      ReadOneDataLine(pre, entries[0], Lines(tail), r);
      ReadDataLines(pre + (line + LF), entries[1..], Stored(r, entries[0]));
    }
  }

  lemma ReadKeyLine(key: string, value: string, r: Reading)
    requires !r.inData && ':' !in key
    ensures ReadLine(r, key + (":" + value)) == ReadKey(r, key, value)
    ensures ':' in key + (":" + value)
  {
    hide ReadNumber;
    var line := key + (":" + value);
    assert line == key + [':'] + value;
    IndexOfPrefix(key, ':', value);
    assert line[..|key|] == key && line[|key| + 1..] == value;
    assert line[|key|] == ':';
  }

  /** One line of the head. */
  lemma ReadField(pre: string, key: string, value: string, more: string, r: Reading)
    requires !r.inData && ':' !in key && '\n' !in key && '\n' !in value && ReadKey(r, key, value).Some?
    ensures var file, line := pre + ((key + (":" + value)) + (LF + more)), key + (":" + value);
            ReadFrom(file, |pre|, r) == ReadFrom((pre + (line + LF)) + more, |pre + (line + LF)|, ReadKey(r, key, value).value)
  {
    hide ReadLine, ReadKey, IndexOf;
    var line := key + (":" + value);
    ReadKeyLine(key, value, r);
    assert '\n' !in line;
    NotMarker(line);
    GetLine(pre, line, more);
  }

  function ReadKey(r: Reading, key: string, value: string): Option<Reading> {
    if key == "SESSION_ID" then Some(r.(s := r.s.(id := value)))
    else if key == "LAST_ACCESS" then
      match ReadNumber(value) case None => None case Some(n) => Some(r.(s := r.s.(lastAccess := n)))
    else if key == "EXPIRATION" then
      match ReadNumber(value) case None => None case Some(n) => Some(r.(s := r.s.(expiration := n)))
    else Some(r)
  }

  lemma {:induction false} PrintedHasNoBreak(n: int)
    ensures '\n' !in Print(n)
  {
    AllDigits(if n < 0 then -n else n);
    var ds := Digits(if n < 0 then -n else n);
    assert forall k :: 0 <= k < |ds| ==> IsDigit(ds[k]) && ds[k] != '\n';
  }

  predicate ValidSession(s: Session) {
    s.id != "" && '\n' !in s.id && MIN_LL <= s.lastAccess <= MAX_LL && MIN_LL <= s.expiration <= MAX_LL
  }

  /** What the file of a storable session reads as. */
  lemma FileIsRead(s: Session, entries: seq<Entry>, uninitialized: int)
    requires '\n' !in s.id && MIN_LL <= s.lastAccess <= MAX_LL && MIN_LL <= s.expiration <= MAX_LL
    requires Enumerates(entries, s.data) && Storable(s.data)
    ensures ReadFrom(FileText(s, entries), 0, Blank(uninitialized)) == Some(s)
  {
    hide ReadLine, ReadFrom, ReadNumber, Print, DataLines, Lines, IndexOf;
    var tail := DataLines(entries) + ["DATA_END"];
    HeadUnfolds(s, tail);
    var r0 := Blank(uninitialized);
    PrintedHasNoBreak(s.lastAccess);
    PrintedHasNoBreak(s.expiration);
    ReadPrinted(s.lastAccess);
    ReadPrinted(s.expiration);
    var l1, l2, l3 := "SESSION_ID" + (":" + s.id), "LAST_ACCESS" + (":" + Print(s.lastAccess)), "EXPIRATION" + (":" + Print(s.expiration));
    var t3 := "DATA_START" + (LF + Lines(tail));
    var t2 := l3 + (LF + t3);
    var t1 := l2 + (LF + t2);
    var file := "" + (l1 + (LF + t1));
    assert FileText(s, entries) == file;
    var p1 := "" + (l1 + LF);
    var r1 := r0.(s := r0.s.(id := s.id));
    ReadField("", "SESSION_ID", s.id, t1, r0);
    var p2 := p1 + (l2 + LF);
    var r2 := r1.(s := r1.s.(lastAccess := s.lastAccess));
    ReadField(p1, "LAST_ACCESS", Print(s.lastAccess), t2, r1);
    var p3 := p2 + (l3 + LF);
    var r3 := r2.(s := r2.s.(expiration := s.expiration));
    ReadField(p2, "EXPIRATION", Print(s.expiration), t3, r2);
    ReadStart(p3, Lines(tail), r3);
    ReadDataLines(p3 + ("DATA_START" + LF), entries, r3.(inData := true));
  }

  /** A storable session is read back with its id, its expiration and all its data, in
      any iteration order of its map; the access time survives exactly when no entry
      touches it (or the reading happens at that very time). */
  lemma StorableRoundTrip(s: Session, entries: seq<Entry>, now: int, uninitialized: int)
    requires ValidSession(s) && Enumerates(entries, s.data) && Storable(s.data)
    ensures Load(FileText(s, entries), now, uninitialized)
         == Some(Session(s.id, if s.data == map[] && s.lastAccess != 0 then s.lastAccess else now, s.expiration, s.data))
  {
    hide FileText, ReadFrom;
    FileIsRead(s, entries, uninitialized);
  }

  lemma ReadStart(pre: string, more: string, r: Reading)
    ensures var p := pre + ("DATA_START" + LF);
            ReadFrom(pre + ("DATA_START" + (LF + more)), |pre|, r) == ReadFrom(p + more, |p|, r.(inData := true))
  {
    hide ReadLine, IndexOf;
    GetLine(pre, "DATA_START", more);
  }

  lemma HeadUnfolds(s: Session, tail: seq<string>)
    ensures Lines(HeadLines(s) + tail)
         == ("SESSION_ID" + (":" + s.id)) + (LF + (("LAST_ACCESS" + (":" + Print(s.lastAccess)))
            + (LF + (("EXPIRATION" + (":" + Print(s.expiration))) + (LF + ("DATA_START" + (LF + Lines(tail))))))))
  {
    hide Print;
    var a, b, c, d := "SESSION_ID:" + s.id, "LAST_ACCESS:" + Print(s.lastAccess), "EXPIRATION:" + Print(s.expiration), "DATA_START";
    FourThen(a, b, c, d, tail);
    assert a == "SESSION_ID" + (":" + s.id);
    assert b == "LAST_ACCESS" + (":" + Print(s.lastAccess));
    assert c == "EXPIRATION" + (":" + Print(s.expiration));
  }

  lemma FourThen(a: string, b: string, c: string, d: string, tail: seq<string>)
    ensures Lines([a, b, c, d] + tail) == a + (LF + (b + (LF + (c + (LF + (d + (LF + Lines(tail))))))))
  {
    var l0 := [a, b, c, d] + tail;
    assert l0[1..] == [b, c, d] + tail && l0[1..][1..] == [c, d] + tail;
    assert l0[1..][1..][1..] == [d] + tail && l0[1..][1..][1..][1..] == tail;
    assert Lines([d] + tail) == d + (LF + Lines(tail));
    assert Lines([c, d] + tail) == c + (LF + Lines([d] + tail));
    assert Lines([b, c, d] + tail) == b + (LF + Lines([c, d] + tail));
  }

  /** Whatever the file, what is read back is storable. */
  lemma {:induction false} ReadIsStorable(file: string, pos: nat, r: Reading)
    requires pos <= |file| && Storable(r.s.data)
    ensures ReadFrom(file, pos, r).Some? ==> Storable(ReadFrom(file, pos, r).value.data)
    decreases |file| - pos
  {
    hide ReadLine, IndexOf;
    if pos < |file| {
      var e := IndexOf(file, '\n', pos);
      var line, next := file[pos..e], if e < |file| then e + 1 else e;
      if line == "DATA_START" {
        ReadIsStorable(file, next, r.(inData := true));
      } else if line != "DATA_END" && ReadLine(r, line).Some? {
        ReadLineIsStorable(r, line);
        ReadIsStorable(file, next, ReadLine(r, line).value);
      }
    }
  }

  lemma ReadLineIsStorable(r: Reading, line: string)
    requires Storable(r.s.data) && '\n' !in line && ReadLine(r, line).Some?
    ensures Storable(ReadLine(r, line).value.s.data)
  {
    hide ReadNumber;
    var colon := IndexOf(line, ':', 0);
    assert line[0..colon] == line[..colon];
    if colon < |line| {
      assert StorableKey(line[..colon]);
      assert StorableValue(line[colon + 1..]);
    }
  }

  lemma LoadIsStorable(file: string, now: int, uninitialized: int)
    ensures Load(file, now, uninitialized).Some? ==> Storable(Load(file, now, uninitialized).value.data)
  {
    hide ReadFrom;
    ReadIsStorable(file, 0, Blank(uninitialized));
  }

  /** A session's id, expiration and data survive the file exactly when its keys contain
      no ':' or newline and its values no newline. */
  lemma RoundTripIffStorable(s: Session, entries: seq<Entry>, now: int, uninitialized: int)
    requires ValidSession(s) && Enumerates(entries, s.data)
    ensures (match Load(FileText(s, entries), now, uninitialized)
             case None => false
             case Some(r) => r.id == s.id && r.expiration == s.expiration && r.data == s.data)
       <==> Storable(s.data)
  {
    hide FileText, ReadFrom, Storable, Load;
    if Storable(s.data) { StorableRoundTrip(s, entries, now, uninitialized); }
    LoadIsStorable(FileText(s, entries), now, uninitialized);
  }

  // ---------- Lines that say nothing, and files that give no session ----------

  /** No key, or in the head a key that is none of the three. */
  ghost predicate SaysNothing(line: string, inData: bool) {
    && '\n' !in line && line != "DATA_START" && line != "DATA_END"
    && (':' !in line || (!inData && exists key, value: string :: Unknown(line, key, value)))
  }

  predicate Unknown(line: string, key: string, value: string) {
    line == key + (":" + value) && ':' !in key && key != "SESSION_ID" && key != "LAST_ACCESS" && key != "EXPIRATION"
  }

  lemma NothingRead(line: string, r: Reading)
    requires SaysNothing(line, r.inData)
    ensures ReadLine(r, line) == Some(r)
  {
    hide ReadNumber;
    if ':' in line {
      var key, value: string :| Unknown(line, key, value);
      ReadKeyLine(key, value, r);
    } else {
      assert line[0..|line|] == line;
      IndexOfIs(line, ':', 0, |line|);
    }
  }

  /** Whatever is read before and after it, a line that says nothing changes nothing. */
  lemma {:induction false} NoiseIgnored(pre: string, line: string, more: string, r: Reading)
    requires SaysNothing(line, r.inData)
    ensures ReadFrom(pre + (line + (LF + more)), |pre|, r) == ReadFrom((pre + (line + LF)) + more, |pre + (line + LF)|, r)
  {
    hide ReadLine, IndexOf, SaysNothing;
    NothingRead(line, r);
    assert '\n' !in line && line != "DATA_START" && line != "DATA_END" by { NoiseHasNoBreak(line, r.inData); }
    GetLine(pre, line, more);
  }

  lemma NoiseHasNoBreak(line: string, inData: bool)
    requires SaysNothing(line, inData)
    ensures '\n' !in line && line != "DATA_START" && line != "DATA_END"
  {}

  /** A time without a digit where one is due gives no session, whatever follows. */
  lemma {:induction false} BadNumberGivesNone(pre: string, key: string, value: string, more: string, r: Reading)
    requires !r.inData && (key == "LAST_ACCESS" || key == "EXPIRATION") && '\n' !in value
    requires value == "" || (!('0' <= value[0] <= '9') && value[0] != '+' && value[0] != '-' && !IsSpace(value[0]))
    ensures ReadFrom(pre + ((key + (":" + value)) + (LF + more)), |pre|, r) == None
  {
    hide ReadLine, IndexOf;
    var line := key + (":" + value);
    assert ':' !in key && '\n' !in key && key != "SESSION_ID" by { KeysAreOthers(); }
    ReadKeyLine(key, value, r);
    assert ReadNumber(value) == None;
    assert '\n' !in line;
    NotMarker(line);
    GetLine(pre, line, more);
  }

  lemma KeysAreOthers()
    ensures ':' !in "LAST_ACCESS" && ':' !in "EXPIRATION" && '\n' !in "LAST_ACCESS" && '\n' !in "EXPIRATION"
    ensures "LAST_ACCESS" != "SESSION_ID" && "EXPIRATION" != "SESSION_ID" && "LAST_ACCESS" != "EXPIRATION"
  {}

  /** A session without an id has a file that gives none. */
  lemma {:induction false} NoIdNoSession(s: Session, entries: seq<Entry>, now: int, uninitialized: int)
    requires s.id == "" && MIN_LL <= s.lastAccess <= MAX_LL && MIN_LL <= s.expiration <= MAX_LL
    requires Enumerates(entries, s.data) && Storable(s.data)
    ensures Load(FileText(s, entries), now, uninitialized) == None
  {
    hide FileText, ReadFrom;
    FileIsRead(s, entries, uninitialized);
  }

  // ---------- A session that does not come back ----------

  /** A ':' in a key is not told from the one behind the key: two sessions, one file. */
  lemma TwoSessionsOneFile(s: Session, a: string, b: string, v: string)
    ensures FileText(s.(data := map[a + (":" + b) := v]), [(a + (":" + b), v)])
         == FileText(s.(data := map[a := b + (":" + v)]), [(a, b + (":" + v))])
  {
    hide Print, Lines;
    var e, f: Entry := (a + (":" + b), v), (a, b + (":" + v));
    assert DataLine(e) == DataLine(f);
    assert [e][1..] == [] && [f][1..] == [];
    assert DataLines([e]) == DataLines([f]);
  }

  /** A session with the key "a:b" comes back with the key "a". */
  lemma ColonKeyIsCut(now: int, uninitialized: int)
    ensures var s := Session("x", 1, 1, map["a:b" := "v"]);
            && ValidSession(s) && Enumerates([("a:b", "v")], s.data)
            && Load(FileText(s, [("a:b", "v")]), now, uninitialized) == Some(Session("x", now, 1, map["a" := "b:v"]))
  {
    var s, t := Session("x", 1, 1, map["a:b" := "v"]), Session("x", 1, 1, map["a" := "b:v"]);
    assert "a" + (":" + "b") == "a:b" && "b" + (":" + "v") == "b:v";
    TwoSessionsOneFile(s, "a", "b", "v");
    var e, f: Entry := ("a:b", "v"), ("a", "b:v");
    assert [e][1..] == [] && [f][1..] == [];
    assert ToMap(map[], [e]) == s.data && ToMap(map[], [f]) == t.data;
    hide FileText, Load;
    StorableRoundTrip(t, [f], now, uninitialized);
    assert "a" in t.data;
  }
}
