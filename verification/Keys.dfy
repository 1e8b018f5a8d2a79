/** Idempotency keys. */
module Keys {
  import opened Basics

  predicate SafeChar(c: char) {
    'A' <= c <= 'Z' || 'a' <= c <= 'z' || '0' <= c <= '9' || c == '_' || c == '-'
  }

  function WithoutNewline(s: string): string {
    if s != "" && s[|s| - 1] == '\n' then s[..|s| - 1] else s
  }

  /** What `^[A-Za-z0-9_\-]+$` matches: `$` also matches before a final newline. */
  predicate SafeId(s: string) {
    WithoutNewline(s) != "" && forall c | c in WithoutNewline(s) :: SafeChar(c)
  }

  const UPPER := "ABCDEFGHIJKLMNOPQRSTUVWXYZ"
  const LOWER := "abcdefghijklmnopqrstuvwxyz"
  const ALPHABET := UPPER + LOWER + "0123456789_-"

  ghost predicate Spelled(text: string) {
    text != "" && forall c | c in text :: c in ALPHABET
  }

  /** An id is accepted iff it is a non-empty text over the alphabet, with or
      without one newline behind it. */
  lemma SafeIdExactly(s: string)
    ensures SafeId(s) <==> exists text :: Spelled(text) && (s == text || s == text + "\n")
  {
    hide Spelled, SafeId, SafeChar;
    SpelledExactly(WithoutNewline(s));
    if SafeId(s) {
      SafeText(s);
      assert s == WithoutNewline(s) || s == WithoutNewline(s) + "\n";
    }
    if text :| Spelled(text) && (s == text || s == text + "\n") {
      SpelledExactly(text);
      assert WithoutNewline(s) == text;
      SafeText(s);
    }
  }

  lemma SafeText(s: string)
    ensures SafeId(s) <==> WithoutNewline(s) != "" && forall c | c in WithoutNewline(s) :: SafeChar(c)
  {
  }

  lemma SpelledExactly(text: string)
    ensures Spelled(text) <==> text != "" && forall c | c in text :: SafeChar(c)
    ensures Spelled(text) ==> text[|text| - 1] != '\n'
  {
    forall c
      ensures SafeChar(c) <==> c in ALPHABET
    {
      SafeCharExactly(c);
    }
    if text != "" {
      assert text[|text| - 1] in text;
    }
  }

  lemma SafeCharExactly(c: char)
    ensures SafeChar(c) <==> c in ALPHABET
  {
    InUpper(c);
    InLower(c);
    assert c in "0123456789" <==> '0' <= c <= '9';
    assert c in ALPHABET <==> c in UPPER || c in LOWER || c in "0123456789_-";
  }

  lemma InUpper(c: char)
    ensures c in UPPER <==> 'A' <= c <= 'Z'
  {
    if 'A' <= c <= 'Z' {
      assert UPPER[c as int - 'A' as int] == c;
    }
  }

  lemma InLower(c: char)
    ensures c in LOWER <==> 'a' <= c <= 'z'
  {
    if 'a' <= c <= 'z' {
      assert LOWER[c as int - 'a' as int] == c;
    }
  }

  datatype RowKey = RowKey(run: string, node: string, attempt: nat)

  predicate SafeKey(k: RowKey) {
    SafeId(k.run) && SafeId(k.node) && k.attempt >= 1
  }

  function Digits(n: nat): (r: string)
    ensures r != "" && forall c | c in r :: '0' <= c <= '9'
  {
    var d := ['0' + (n % 10) as char];
    if n < 10 then d else Digits(n / 10) + d
  }

  function KeyText(k: RowKey): string {
    "attractor:" + k.run + ":" + k.node + ":attempt:" + Digits(k.attempt)
  }

  /** `IdempotencyKey.for_node`. */
  function ForNode(k: RowKey): Result<string> {
    if !SafeId(k.run) || !SafeId(k.node) then Raised else Ok(KeyText(k))
  }

  /** The number a text of digits writes in base ten. */
  function Decimal(s: string): int {
    if s == "" then 0 else 10 * Decimal(s[..|s| - 1]) + s[|s| - 1] as int - '0' as int
  }

  lemma {:induction false} DigitsRead(n: nat)
    ensures Decimal(Digits(n)) == n && (n > 0 ==> Digits(n)[0] != '0')
    decreases n
  {
    var d := ['0' + (n % 10) as char];
    assert Decimal(d[..0]) == 0;
    if n >= 10 {
      DigitsRead(n / 10);
      assert (Digits(n / 10) + d)[..|Digits(n / 10)|] == Digits(n / 10);
    }
  }

  /** A key is refused iff one of its ids is unsafe; otherwise it spells out run,
      node and attempt, the attempt in decimal without leading zeros. */
  lemma KeyReads(k: RowKey)
    ensures ForNode(k) == Raised <==> !SafeId(k.run) || !SafeId(k.node)
    ensures ForNode(k).Ok? ==> exists digits ::
      && ForNode(k).value == "attractor:" + k.run + ":" + k.node + ":attempt:" + digits
      && Decimal(digits) == k.attempt && digits != "" && (k.attempt > 0 ==> digits[0] != '0')
      && forall c | c in digits :: '0' <= c <= '9'
  {
    hide SafeId;
    DigitsRead(k.attempt);
  }

  lemma {:induction false} DigitsInjective(a: nat, b: nat)
    requires Digits(a) == Digits(b)
    ensures a == b
    decreases a
  {
    var x, y := Digits(a), Digits(b);
    assert x[|x| - 1] == '0' + (a % 10) as char;
    assert y[|y| - 1] == '0' + (b % 10) as char;
    assert a % 10 == b % 10;
    if a >= 10 && b >= 10 {
      assert x[..|x| - 1] == Digits(a / 10);
      assert y[..|y| - 1] == Digits(b / 10);
      DigitsInjective(a / 10, b / 10);
    }
  }

  lemma SplitAtColon(a: string, x: string, b: string, y: string)
    requires ':' !in a && ':' !in b
    requires a + ":" + x == b + ":" + y
    ensures a == b && x == y
  {
    var s, t := a + ":" + x, b + ":" + y;
    assert s[|a|] == ':' && t[|b|] == ':';
    assert forall i | 0 <= i < |a| :: s[i] == a[i] && a[i] in a;
    assert forall i | 0 <= i < |b| :: t[i] == b[i] && b[i] in b;
    assert |a| == |b|;
    assert s[..|a|] == a && t[..|b|] == b;
    assert s[|a| + 1..] == x && t[|b| + 1..] == y;
  }

  lemma SafeHasNoColon(s: string)
    requires SafeId(s)
    ensures ':' !in s
  {
    forall i | 0 <= i < |s|
      ensures s[i] != ':'
    {
      if i < |WithoutNewline(s)| {
        assert s[i] == WithoutNewline(s)[i];
        assert s[i] in WithoutNewline(s);
      }
    }
  }

  /** On safe ids the key text determines run, node and attempt. */
  lemma KeyTextInjective(j: RowKey, k: RowKey)
    requires SafeId(j.run) && SafeId(j.node) && SafeId(k.run) && SafeId(k.node)
    requires KeyText(j) == KeyText(k)
    ensures j == k
  {
    hide SafeId, Digits;
    SafeHasNoColon(j.run);
    SafeHasNoColon(j.node);
    SafeHasNoColon(k.run);
    SafeHasNoColon(k.node);
    var p := "attractor:";
    var s, t := KeyText(j), KeyText(k);
    var sTail, tTail := "attempt:" + Digits(j.attempt), "attempt:" + Digits(k.attempt);
    assert s == p + (j.run + ":" + (j.node + ":" + sTail));
    assert t == p + (k.run + ":" + (k.node + ":" + tTail));
    assert s[|p|..] == j.run + ":" + (j.node + ":" + sTail);
    assert t[|p|..] == k.run + ":" + (k.node + ":" + tTail);
    SplitAtColon(j.run, j.node + ":" + sTail, k.run, k.node + ":" + tTail);
    SplitAtColon(j.node, sTail, k.node, tTail);
    assert sTail[8..] == Digits(j.attempt) && tTail[8..] == Digits(k.attempt);
    DigitsInjective(j.attempt, k.attempt);
  }
}
