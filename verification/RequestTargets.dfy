/** What a request target means: its path as it was before percent-encoding, and the names and
    values of its query. */
module RequestTargets {
  import opened RequestSyntax
  import opened Text
  import opened UrlCodec

  // ---------- Paths ----------

  /** One character of a path as it may be written: itself, escaped, or an escaped slash, which
      is no separator and stays escaped. */
  datatype Unit = Itself(c: char) | Escape(c: char, upper: bool) | EscapedSlash(upper: bool)

  function Written(u: Unit): string {
    match u
    case Itself(c) => [c]
    case Escape(c, upper) => if c as int < 256 then ['%', HexDigit(c as int / 16, upper), HexDigit(c as int % 16, upper)] else [c]
    case EscapedSlash(upper) => if upper then "%2F" else "%2f"
  }

  /** What it stands for. */
  function Meant(u: Unit): string {
    match u
    case Itself(c) => [c]
    case Escape(c, _) => [c]
    case EscapedSlash(upper) => if upper then "%2F" else "%2f"
  }

  function AllWritten(us: seq<Unit>): string { if us == [] then "" else Written(us[0]) + AllWritten(us[1..]) }

  function AllMeant(us: seq<Unit>): string { if us == [] then "" else Meant(us[0]) + AllMeant(us[1..]) }

  /** A digit of an escape; the code takes NUL for one. */
  predicate DigitOrNul(c: char) {
    '0' <= c <= '9' || 'a' <= c <= 'f' || 'A' <= c <= 'F' || c as int == 0
  }

  /** A percent sign in front of this does not begin an escape. */
  predicate NoEscapeBehind(rest: string) { |rest| < 2 || !DigitOrNul(rest[0]) || !DigitOrNul(rest[1]) }

  predicate Writable(u: Unit, rest: string) {
    match u
    case Itself(c) => c == '%' ==> NoEscapeBehind(rest)
    case Escape(c, _) => c as int < 256 && c != '/'
    case EscapedSlash(_) => true
  }

  predicate AllWritable(us: seq<Unit>) {
    us != [] ==> Writable(us[0], AllWritten(us[1..])) && AllWritable(us[1..])
  }

  lemma UnitDecodes(pre: string, u: Unit, rest: string)
    requires Writable(u, rest)
    ensures var s, i := pre + (Written(u) + rest), |pre|;
            && i < |s| && Next(s, i) == |pre + Written(u)| && Piece(s, i, true, false) == Meant(u)
  {
    var w := Written(u);
    var s, i := pre + (w + rest), |pre|;
    assert s[i] == w[0];
    match u
    case Itself(c) =>
      if |rest| >= 2 { assert s[i + 1] == rest[0] && s[i + 2] == rest[1]; }
    case Escape(c, upper) =>
      HexDigitVal(c as int / 16, upper);
      HexDigitVal(c as int % 16, upper);
      assert s[i + 1] == w[1] && s[i + 2] == w[2];
    case EscapedSlash(upper) =>
      assert s[i + 1] == '2' && s[i + 2] == w[2] && s[i..i + 3] == w;
  }

  lemma {:induction false} PathDecodes(pre: string, us: seq<Unit>)
    requires AllWritable(us)
    ensures Decode(pre + AllWritten(us), |pre|, true, false) == AllMeant(us)
    decreases |us|
  {
    if us != [] {
      hide Piece, Next, Written, Meant, Writable;
      var w, rest := Written(us[0]), AllWritten(us[1..]);
      UnitDecodes(pre, us[0], rest);
      PathDecodes(pre + w, us[1..]);
      Assoc(pre, w, rest);
    }
  }

  /** Path decoding undoes percent-encoding, whichever characters were escaped and in which
      case; escaped slashes and percent signs that begin no escape stay as they are. */
  lemma PathRoundTrip(us: seq<Unit>)
    requires AllWritable(us)
    ensures PathDecode(AllWritten(us)) == AllMeant(us)
  {
    hide Decode, AllWritten, AllMeant, AllWritable;
    PathDecodes("", us);
    assert "" + AllWritten(us) == AllWritten(us);
  }

  /** The path of a target is what was encoded, with or without a query behind it. */
  lemma {:induction false} TargetPathIs(us: seq<Unit>, query: string)
    requires AllWritable(us) && '?' !in AllWritten(us)
    ensures TargetPath(AllWritten(us)) == AllMeant(us)
    ensures TargetPath(AllWritten(us) + (['?'] + query)) == AllMeant(us)
  {
    hide AllWritten, AllMeant, AllWritable, PathDecode;
    var path := AllWritten(us);
    PathRoundTrip(us);
    assert path[0..] == path;
    IndexOfIs(path, '?', 0, |path|);
    assert path[..|path|] == path;
    assert path + (['?'] + query) == path + ['?'] + query;
    IndexOfPrefix(path, '?', query);
    assert (path + ['?'] + query)[..|path|] == path;
  }

  // ---------- Queries ----------

  /** A name with or without a value, and how their characters are written. */
  datatype Item = Item(name: string, nameStyles: seq<Style>, hasValue: bool, value: string, valueStyles: seq<Style>)

  predicate Encodable(s: string, styles: seq<Style>, unsafe: set<char>) {
    |s| == |styles| && forall k :: 0 <= k < |s| ==> Allows(styles[k], s[k]) && (styles[k].Raw? ==> s[k] !in unsafe)
  }

  /** In a name '=' is escaped, in both '&' is; a name without '=' has the empty value. */
  predicate ValidItem(x: Item) {
    Encodable(x.name, x.nameStyles, {'&', '='}) && Encodable(x.value, x.valueStyles, {'&'}) && (x.hasValue || x.value == "")
  }

  function ItemText(x: Item): string
    requires ValidItem(x)
  {
    var name := PercentEncode(x.name, x.nameStyles);
    if x.hasValue then name + (['='] + PercentEncode(x.value, x.valueStyles)) else name
  }

  function ItemTexts(xs: seq<Item>): (r: seq<string>)
    requires forall x :: x in xs ==> ValidItem(x)
    ensures |r| == |xs|
  {
    if xs == [] then [] else [ItemText(xs[0])] + ItemTexts(xs[1..])
  }

  function Ampersands(texts: seq<string>): string {
    if texts == [] then "" else if |texts| == 1 then texts[0] else texts[0] + (['&'] + Ampersands(texts[1..]))
  }

  lemma CharEncodes(c: char, st: Style, x: char)
    requires Allows(st, c) && (x == '&' || x == '=') && (st.Raw? ==> c != x)
    ensures x !in EncodeChar(c, st)
  {}

  lemma {:induction false} NotWritten(s: string, styles: seq<Style>, unsafe: set<char>, x: char)
    requires Encodable(s, styles, unsafe) && x in unsafe && (x == '&' || x == '=')
    ensures x !in PercentEncode(s, styles)
  {
    if s != "" {
      CharEncodes(s[0], styles[0], x);
      NotWritten(s[1..], styles[1..], unsafe, x);
    }
  }

  lemma ItemHasNoAmpersand(x: Item)
    requires ValidItem(x)
    ensures '&' !in ItemText(x)
  {
    hide PercentEncode;
    NotWritten(x.name, x.nameStyles, {'&', '='}, '&');
    NotWritten(x.value, x.valueStyles, {'&'}, '&');
  }

  /** One item is read back: its name with its value. */
  lemma ItemReads(m: map<string, string>, x: Item)
    requires ValidItem(x)
    ensures AddQuery(m, ItemText(x)) == m[x.name := x.value]
  {
    hide PercentEncode, QueryDecode;
    var name, value := PercentEncode(x.name, x.nameStyles), PercentEncode(x.value, x.valueStyles);
    NotWritten(x.name, x.nameStyles, {'&', '='}, '=');
    QueryRoundTrip(x.name, x.nameStyles);
    QueryRoundTrip(x.value, x.valueStyles);
    if x.hasValue {
      assert ItemText(x) == name + ['='] + value;
      IndexOfPrefix(name, '=', value);
      assert (name + ['='] + value)[..|name|] == name && (name + ['='] + value)[|name| + 1..] == value;
    } else {
      assert name[0..|name|] == name;
      IndexOfIs(name, '=', 0, |name|);
    }
  }

  /** getline gives back the texts; the last one must not be empty, as a separator at the end
      is not followed by another item. */
  lemma {:induction false} ItemsRead(pre: string, texts: seq<string>)
    requires (forall t :: t in texts ==> '&' !in t) && (texts != [] ==> texts[|texts| - 1] != "")
    ensures Items(pre + Ampersands(texts), |pre|) == texts
    decreases |texts|
  {
    hide IndexOf;
    var s := pre + Ampersands(texts);
    if texts != [] {
      var t := texts[0];
      var e := |pre| + |t|;
      assert texts == [t] + texts[1..];
      assert Ampersands(texts)[..|t|] == t;
      assert s[|pre|..e] == t;
      if |texts| == 1 {
        IndexOfIs(s, '&', |pre|, e);
      } else {
        var more := Ampersands(texts[1..]);
        assert s == (pre + t + ['&']) + more;
        assert s[e] == '&';
        IndexOfIs(s, '&', |pre|, e);
        ItemsRead(pre + t + ['&'], texts[1..]);
      }
    }
  }

  /** Every name has the value of its last item. */
  ghost predicate LastValues(m: map<string, string>, xs: seq<Item>) {
    && m.Keys == (set i | 0 <= i < |xs| :: xs[i].name)
    && (forall i :: 0 <= i < |xs| && LastOfName(xs, i) ==> xs[i].name in m && m[xs[i].name] == xs[i].value)
  }

  predicate LastOfName(xs: seq<Item>, i: nat)
    requires i < |xs|
  {
    forall j :: i < j < |xs| ==> xs[j].name != xs[i].name
  }

  lemma {:induction false} QueriesRead(xs: seq<Item>)
    requires forall x :: x in xs ==> ValidItem(x)
    ensures LastValues(AddQueries(map[], ItemTexts(xs)), xs)
  {
    hide ItemText, AddQuery, ValidItem, LastValues;
    if xs == [] {
      assert LastValues(map[], []) by { NoValues(); }
    } else {
      var less, x := xs[..|xs| - 1], xs[|xs| - 1];
      QueriesRead(less);
      TextsSnoc(less, x);
      assert xs == less + [x];
      var m := AddQueries(map[], ItemTexts(less));
      ItemReads(m, x);
      assert (ItemTexts(less) + [ItemText(x)])[..|less|] == ItemTexts(less);
      LastStep(m, less, x);
    }
  }

  lemma NoValues()
    ensures LastValues(map[], [])
  {}

  lemma {:induction false} TextsSnoc(xs: seq<Item>, x: Item)
    requires forall y :: y in xs + [x] ==> ValidItem(y)
    ensures ItemTexts(xs + [x]) == ItemTexts(xs) + [ItemText(x)]
  {
    hide ItemText, ValidItem;
    if xs == [] {
      assert [] + [x] == [x] && [x][1..] == [];
    } else {
      assert (xs + [x])[1..] == xs[1..] + [x];
      TextsSnoc(xs[1..], x);
    }
  }

  lemma LastStep(m: map<string, string>, xs: seq<Item>, x: Item)
    requires LastValues(m, xs)
    ensures LastValues(m[x.name := x.value], xs + [x])
  {
    var ys := xs + [x];
    assert forall i :: 0 <= i < |xs| ==> ys[i] == xs[i];
    assert ys[|xs|] == x;
    forall i | 0 <= i < |ys| && LastOfName(ys, i)
      ensures ys[i].name in m[x.name := x.value] && m[x.name := x.value][ys[i].name] == ys[i].value
    {
      if i < |xs| {
        assert ys[|xs|].name != ys[i].name;
        assert forall j :: i < j < |xs| ==> ys[j] == xs[j];
        assert LastOfName(xs, i);
      }
    }
  }

  lemma {:induction false} TextsHaveNoAmpersand(xs: seq<Item>)
    requires forall x :: x in xs ==> ValidItem(x)
    ensures forall t :: t in ItemTexts(xs) ==> '&' !in t
    ensures xs != [] ==> ItemTexts(xs)[|xs| - 1] == ItemText(xs[|xs| - 1])
  {
    hide ItemText, ValidItem;
    if xs != [] {
      ItemHasNoAmpersand(xs[0]);
      TextsHaveNoAmpersand(xs[1..]);
    }
  }

  /** The query of a target, however its items are encoded: every name has the value of its
      last item, and there are no other names. */
  lemma {:induction false} TargetQueriesAre(path: string, xs: seq<Item>)
    requires '?' !in path && (forall x :: x in xs ==> ValidItem(x)) && (xs != [] ==> ItemText(xs[|xs| - 1]) != "")
    ensures LastValues(TargetQueries(map[], path + (['?'] + Ampersands(ItemTexts(xs)))), xs)
    ensures TargetQueries(map[], path) == map[]
  {
    hide IndexOf, Ampersands, ItemText, ValidItem, AddQueries, Items, LastValues;
    var query := Ampersands(ItemTexts(xs));
    assert path + (['?'] + query) == path + ['?'] + query;
    IndexOfPrefix(path, '?', query);
    assert (path + ['?'] + query)[|path| + 1..] == query;
    assert path[0..|path|] == path;
    IndexOfIs(path, '?', 0, |path|);
    TextsHaveNoAmpersand(xs);
    assert "" + query == query;
    ItemsRead("", ItemTexts(xs));
    QueriesRead(xs);
  }
}
