/**
 * The string keys that identity rests on: the relay's message IDs
 * (relay/relay.go) and the name-and-version keys of saga and projection
 * handlers (saga/saga.go, projection/projection.go).
 */
module Keys {
  import opened EventStore

  const DIGITS := "0123456789"

  function Decimal(n: nat): string {
    (if n < 10 then "" else Decimal(n / 10)) + [DIGITS[n % 10]]
  }

  function Itoa(n: int): string {
    if n < 0 then "-" + Decimal(-n) else Decimal(n)
  }

  function MessageID<P>(rec: RecordedEvent<P>): string {
    rec.stream.category + "/" + rec.stream.id + "#" + Itoa(rec.version)
  }

  function EventKey(name: string, version: int): string {
    name + "@v" + Itoa(version)
  }

  lemma {:induction false} DecimalChars(n: nat)
    ensures |Decimal(n)| > 0 && Decimal(n)[0] != '-'
    ensures forall c :: c in Decimal(n) ==> '0' <= c <= '9'
  {
    if n >= 10 {
      DecimalChars(n / 10);
    }
    assert '0' <= DIGITS[n % 10] <= '9';
  }

  lemma {:induction false} DecimalInjective(m: nat, n: nat)
    requires Decimal(m) == Decimal(n)
    ensures m == n
  {
    var a, b := Decimal(m), Decimal(n);
    assert a[|a| - 1] == DIGITS[m % 10] && b[|b| - 1] == DIGITS[n % 10];
    assert m % 10 == n % 10;
    assert a[..|a| - 1] == (if m < 10 then "" else Decimal(m / 10));
    assert b[..|b| - 1] == (if n < 10 then "" else Decimal(n / 10));
    if m >= 10 { DecimalChars(m / 10); }
    if n >= 10 { DecimalChars(n / 10); }
    if m >= 10 && n >= 10 {
      DecimalInjective(m / 10, n / 10);
    }
  }

  lemma ItoaChars(n: int)
    ensures forall c :: c in Itoa(n) ==> c == '-' || '0' <= c <= '9'
  {
    DecimalChars(if n < 0 then -n else n);
  }

  lemma ItoaInjective(m: int, n: int)
    requires Itoa(m) == Itoa(n)
    ensures m == n
  {
    DecimalChars(if m < 0 then -m else m);
    DecimalChars(if n < 0 then -n else n);
    assert (m < 0) == (Itoa(m)[0] == '-');
    assert (n < 0) == (Itoa(n)[0] == '-');
    if m < 0 {
      assert Itoa(m)[1..] == Decimal(-m) && Itoa(n)[1..] == Decimal(-n);
      DecimalInjective(-m, -n);
    } else {
      DecimalInjective(m, n);
    }
  }

  lemma SeparatorMoved(a: string, b: string, c: string, d: string, sep: char)
    requires a + [sep] + b == c + [sep] + d && |a| < |c|
    ensures sep in c && sep in b
  {
    var s := a + [sep] + b;
    assert s[|a|] == sep && s[|a|] == (c + [sep] + d)[|a|] == c[|a|];
    assert s[|c|] == (c + [sep] + d)[|c|] == sep && s[|c|] == b[|c| - |a| - 1];
  }

  lemma SplitSameLength(a: string, b: string, c: string, d: string, sep: char)
    requires a + [sep] + b == c + [sep] + d && |a| == |c|
    ensures a == c && b == d
  {
    var s := a + [sep] + b;
    assert a == s[..|a|] && c == s[..|c|];
    assert b == s[|a| + 1..] && d == s[|c| + 1..];
  }

  lemma SplitAtFirst(a: string, b: string, c: string, d: string, sep: char)
    requires sep !in a && sep !in c
    requires a + [sep] + b == c + [sep] + d
    ensures a == c && b == d
  {
    if |a| < |c| {
      SeparatorMoved(a, b, c, d, sep);
    } else if |c| < |a| {
      SeparatorMoved(c, d, a, b, sep);
    } else {
      SplitSameLength(a, b, c, d, sep);
    }
  }

  lemma SplitAtLast(a: string, b: string, c: string, d: string, sep: char)
    requires sep !in b && sep !in d
    requires a + [sep] + b == c + [sep] + d
    ensures a == c && b == d
  {
    if |a| < |c| {
      SeparatorMoved(a, b, c, d, sep);
    } else if |c| < |a| {
      SeparatorMoved(c, d, a, b, sep);
    } else {
      SplitSameLength(a, b, c, d, sep);
    }
  }

  /** Two records share a message ID exactly when version and slash-joined path agree. */
  lemma MessageIDEqual<P, Q>(r: RecordedEvent<P>, s: RecordedEvent<Q>)
    ensures MessageID(r) == MessageID(s) <==>
      r.stream.category + "/" + r.stream.id == s.stream.category + "/" + s.stream.id && r.version == s.version
  {
    var p, q := r.stream.category + "/" + r.stream.id, s.stream.category + "/" + s.stream.id;
    assert MessageID(r) == p + ['#'] + Itoa(r.version);
    assert MessageID(s) == q + ['#'] + Itoa(s.version);
    if MessageID(r) == MessageID(s) {
      ItoaChars(r.version);
      ItoaChars(s.version);
      SplitAtLast(p, Itoa(r.version), q, Itoa(s.version), '#');
      ItoaInjective(r.version, s.version);
    }
  }

  /**
   * When no category contains '/', a message ID determines stream and version,
   * even if stream IDs contain '/' or '#'.
   */
  lemma MessageIDInjective<P, Q>(r: RecordedEvent<P>, s: RecordedEvent<Q>)
    requires '/' !in r.stream.category && '/' !in s.stream.category
    ensures MessageID(r) == MessageID(s) <==> r.stream == s.stream && r.version == s.version
  {
    MessageIDEqual(r, s);
    if MessageID(r) == MessageID(s) {
      SplitAtFirst(r.stream.category, r.stream.id, s.stream.category, s.stream.id, '/');
    }
  }

  /** The message ID of version v of stream `id` in category c. */
  function IDAt(c: string, id: string, v: int): string {
    MessageID(RecordedEvent(0, StreamID(c, id), v, EventData("", 1, ())))
  }

  lemma IDAtInjective(c: string, i: string, v: int, d: string, j: string, w: int)
    requires '/' !in c && '/' !in d
    ensures IDAt(c, i, v) == IDAt(d, j, w) <==> c == d && i == j && v == w
  {
    MessageIDInjective(RecordedEvent(0, StreamID(c, i), v, EventData("", 1, ())),
                       RecordedEvent(0, StreamID(d, j), w, EventData("", 1, ())));
  }

  /**
   * The exact limit of the injectivity above: two distinct categories can
   * produce the same message ID precisely when one is the other followed by '/',
   * and then they do so for streams whose IDs are not empty.
   */
  lemma CollidingCategories(c: string, d: string)
    requires c != d
    ensures (exists i, j, v, w :: IDAt(c, i, v) == IDAt(d, j, w)) <==> c + "/" <= d || d + "/" <= c
    ensures c + "/" <= d || d + "/" <= c ==>
      exists i, j, v :: i != "" && j != "" && IDAt(c, i, v) == IDAt(d, j, v)
  {
    if i, j, v, w :| IDAt(c, i, v) == IDAt(d, j, w) {
      SharedIDNests(c, i, d, j, v, w);
    }
    if c + "/" <= d {
      NestedCategoryCollides(c, d, "x", 1);
    }
    if d + "/" <= c {
      NestedCategoryCollides(d, c, "x", 1);
    }
  }

  lemma SharedIDNests(c: string, i: string, d: string, j: string, v: int, w: int)
    requires IDAt(c, i, v) == IDAt(d, j, w)
    ensures c == d || c + "/" <= d || d + "/" <= c
  {
    MessageIDEqual(RecordedEvent(0, StreamID(c, i), v, EventData("", 1, ())),
                   RecordedEvent(0, StreamID(d, j), w, EventData("", 1, ())));
    var p := c + "/" + i;
    assert p == d + "/" + j;
    assert c + "/" <= p && d + "/" <= p;
    if |c| < |d| {
      assert (c + "/") == p[..|c| + 1] == d[..|c| + 1];
    } else if |d| < |c| {
      assert (d + "/") == p[..|d| + 1] == c[..|d| + 1];
    } else {
      assert c == p[..|c|] == d;
    }
  }

  /** Every stream of the longer category shares its message IDs with one of the shorter. */
  lemma NestedCategoryCollides(c: string, d: string, id: string, v: int)
    requires c + "/" <= d
    ensures d[|c| + 1..] + "/" + id != "" && IDAt(c, d[|c| + 1..] + "/" + id, v) == IDAt(d, id, v)
  {
    var rest := d[|c| + 1..];
    assert d == c + "/" + rest;
    assert c + "/" + (rest + "/" + id) == d + "/" + id;
    MessageIDEqual(RecordedEvent(0, StreamID(c, rest + "/" + id), v, EventData("", 1, ())),
                   RecordedEvent(0, StreamID(d, id), v, EventData("", 1, ())));
  }

  /** A handler key determines the contract name and the version. */
  lemma EventKeyInjective(name: string, version: int, name': string, version': int)
    ensures EventKey(name, version) == EventKey(name', version') <==> name == name' && version == version'
  {
    EventKeySplit(name, version);
    EventKeySplit(name', version');
    if EventKey(name, version) == EventKey(name', version') {
      ItoaChars(version);
      ItoaChars(version');
      SplitAtLast(name, "v" + Itoa(version), name', "v" + Itoa(version'), '@');
      assert ("v" + Itoa(version))[1..] == Itoa(version) && ("v" + Itoa(version'))[1..] == Itoa(version');
      ItoaInjective(version, version');
    }
  }

  lemma EventKeySplit(name: string, version: int)
    ensures EventKey(name, version) == name + ['@'] + ("v" + Itoa(version))
  {
    assert "@v" == ['@'] + "v";
  }
}
