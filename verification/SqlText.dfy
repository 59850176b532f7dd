/**
 * SQL text the source builds by hand, read back by the lexical rules of PostgreSQL:
 * delimited identifiers (manual section 4.1.1) and string constants (section 4.1.2.1).
 */
module SqlText {
  import opened Base
  import opened Text

  // ---- printing ----

  /** s.replaceAll(q, qq). */
  function Doubled(s: string, q: char): string {
    if s == "" then "" else (if s[0] == q then [q, q] else [s[0]]) + Doubled(s[1..], q)
  }

  function Quoted(s: string, q: char): string {
    [q] + Doubled(s, q) + [q]
  }

  /** quoteIdent. */
  function QuoteIdent(name: string): string {
    Quoted(name, '"')
  }

  /** The literal list of enumCheck. */
  function EnumLiterals(values: seq<string>): string {
    if values == [] then ""
    else if |values| == 1 then Quoted(values[0], '\'')
    else Quoted(values[0], '\'') + "," + EnumLiterals(values[1..])
  }

  // ---- reading ----

  datatype Token = Token(text: string, rest: string)

  /** The rest of a quoted token: a doubled quote stands for one, a single one ends it; None if unterminated. */
  function Body(s: string, q: char): (r: Option<Token>)
    ensures r.Some? ==> |r.value.rest| < |s|
    decreases |s|
  {
    if s == "" then None
    else if s[0] != q then
      var more := Body(s[1..], q);
      if more.None? then None else Some(Token([s[0]] + more.value.text, more.value.rest))
    else if |s| >= 2 && s[1] == q then
      var more := Body(s[2..], q);
      if more.None? then None else Some(Token([q] + more.value.text, more.value.rest))
    else Some(Token("", s[1..]))
  }

  function LexQuoted(s: string, q: char): (r: Option<Token>)
    ensures r.Some? ==> |r.value.rest| < |s|
  {
    if s != "" && s[0] == q then Body(s[1..], q) else None
  }

  function Utf8Bytes(c: char): nat {
    if c <= '\U{007F}' then 1 else if c <= '\U{07FF}' then 2 else if c <= '\U{FFFF}' then 3 else 4
  }

  function Utf8Length(s: string): nat {
    if s == "" then 0 else Utf8Length(s[..|s| - 1]) + Utf8Bytes(s[|s| - 1])
  }

  /** Identifiers longer than 63 bytes are cut at the last character that fits. */
  function Truncated(s: string): string
    decreases |s|
  {
    if Utf8Length(s) <= 63 then s else assert s != ""; Truncated(s[..|s| - 1])
  }

  /** The name a delimited identifier denotes; zero-length ones and ones with a NUL are errors. */
  function IdentifierName(s: string): Option<string> {
    var t := LexQuoted(s, '"');
    if t.None? || t.value.rest != "" || t.value.text == "" || '\0' in t.value.text then None
    else Some(Truncated(t.value.text))
  }

  /** A comma-separated list of string constants. */
  function LexList(s: string): Option<seq<string>>
    decreases |s|
  {
    var t := LexQuoted(s, '\'');
    if t.None? then None
    else if t.value.rest == "" then Some([t.value.text])
    else if t.value.rest[0] != ',' then None
    else
      var more := LexList(t.value.rest[1..]);
      if more.None? then None else Some([t.value.text] + more.value)
  }

  // ---- reading undoes printing ----

  lemma Regroup(x: string, y: string, q: char, rest: string)
    ensures (x + y) + [q] + rest == x + (y + [q] + rest)
  {
  }

  lemma BodyOfQuote(q: char, tail: string)
    ensures Body([q, q] + tail, q)
         == var more := Body(tail, q); if more.None? then None else Some(Token([q] + more.value.text, more.value.rest))
  {
    assert ([q, q] + tail)[2..] == tail;
  }

  lemma BodyOfOther(c: char, q: char, tail: string)
    requires c != q
    ensures Body([c] + tail, q)
         == var more := Body(tail, q); if more.None? then None else Some(Token([c] + more.value.text, more.value.rest))
  {
    assert ([c] + tail)[1..] == tail;
  }

  lemma {:induction false} BodyOfDoubled(s: string, q: char, rest: string)
    requires rest == "" || rest[0] != q
    ensures Body(Doubled(s, q) + [q] + rest, q) == Some(Token(s, rest))
    decreases |s|
  {
    if s == "" {
      assert [q] + rest == Doubled(s, q) + [q] + rest;
      assert ([q] + rest)[1..] == rest;
    } else {
      BodyOfDoubled(s[1..], q, rest);
      var tail := Doubled(s[1..], q) + [q] + rest;
      assert [s[0]] + s[1..] == s;
      if s[0] == q {
        Regroup([q, q], Doubled(s[1..], q), q, rest);
        BodyOfQuote(q, tail);
      } else {
        Regroup([s[0]], Doubled(s[1..], q), q, rest);
        BodyOfOther(s[0], q, tail);
      }
    }
  }

  /** A quoted string followed by anything but its quote is read as one token holding the string. */
  lemma QuotedReadsBack(s: string, q: char, rest: string)
    requires rest == "" || rest[0] != q
    ensures LexQuoted(Quoted(s, q) + rest, q) == Some(Token(s, rest))
  {
    assert (Quoted(s, q) + rest)[1..] == Doubled(s, q) + [q] + rest;
    BodyOfDoubled(s, q, rest);
  }

  lemma {:induction false} TruncatedIdentity(s: string)
    ensures |Truncated(s)| <= |s|
    ensures Truncated(s) == s <==> Utf8Length(s) <= 63
    decreases |s|
  {
    if Utf8Length(s) > 63 {
      TruncatedIdentity(s[..|s| - 1]);
    }
  }

  /** A long identifier is cut to its longest prefix that fits in 63 bytes. */
  lemma {:induction false} TruncatedIsLongestPrefix(s: string)
    ensures Truncated(s) <= s && Utf8Length(Truncated(s)) <= 63
    ensures forall n :: |Truncated(s)| < n <= |s| ==> Utf8Length(s[..n]) > 63
    decreases |s|
  {
    if Utf8Length(s) > 63 {
      var t := s[..|s| - 1];
      TruncatedIsLongestPrefix(t);
      forall n | |Truncated(s)| < n <= |s| ensures Utf8Length(s[..n]) > 63 {
        if n < |s| {
          assert t[..n] == s[..n];
        } else {
          assert s[..n] == s;
        }
      }
    }
  }

  /**
   * quoteIdent never lets a name escape its quotes: the text is one identifier token.
   * The server takes it for the name itself exactly when the name is not empty, has no
   * NUL and fits in 63 bytes; a longer channel is listened to under a shortened name.
   */
  lemma QuotedIdentifierIsTheName(name: string)
    ensures LexQuoted(QuoteIdent(name), '"') == Some(Token(name, ""))
    ensures IdentifierName(QuoteIdent(name)) == Some(name)
            <==> name != "" && '\0' !in name && Utf8Length(name) <= 63
  {
    assert QuoteIdent(name) + "" == QuoteIdent(name);
    QuotedReadsBack(name, '"', "");
    TruncatedIdentity(name);
  }

  /** The literals of enumCheck read back as the same list, whatever quotes and commas the values hold. */
  lemma {:induction false} EnumLiteralsReadBack(values: seq<string>)
    requires values != []
    ensures LexList(EnumLiterals(values)) == Some(values)
  {
    if |values| == 1 {
      assert Quoted(values[0], '\'') + "" == Quoted(values[0], '\'');
      QuotedReadsBack(values[0], '\'', "");
      assert [values[0]] == values;
    } else {
      var rest := "," + EnumLiterals(values[1..]);
      assert EnumLiterals(values) == Quoted(values[0], '\'') + rest;
      QuotedReadsBack(values[0], '\'', rest);
      assert rest[1..] == EnumLiterals(values[1..]);
      EnumLiteralsReadBack(values[1..]);
      assert [values[0]] + values[1..] == values;
    }
  }

  // ---- guarded ids ----

  /** notifyRunActivity and its siblings: NOTIFY with the guarded id spliced in, or an error before any query. */
  function NotifyStatement(channel: string, id: string): Result<string> {
    if SafeId(id) then Ok("NOTIFY " + channel + ", '" + id + "'") else Err("unsafe id for NOTIFY payload: " + id)
  }

  lemma {:induction false} DoubledWithout(s: string, q: char)
    requires q !in s
    ensures Doubled(s, q) == s
  {
    if s != "" {
      DoubledWithout(s[1..], q);
    }
  }

  /**
   * A NOTIFY is made exactly for ids of the guarded alphabet. It names the channel, and
   * what follows is one string constant: the id, and nothing after it.
   */
  lemma GuardedPayloadIsTheId(channel: string, id: string)
    ensures NotifyStatement(channel, id).Ok? <==> SafeId(id)
    ensures NotifyStatement(channel, id).Ok? ==>
              var sql, front := NotifyStatement(channel, id).value, "NOTIFY " + channel + ", ";
              front <= sql && LexQuoted(sql[|front|..], '\'') == Some(Token(id, ""))
  {
    if SafeId(id) {
      var front := "NOTIFY " + channel + ", ";
      var sql := NotifyStatement(channel, id).value;
      assert forall i :: 0 <= i < |id| ==> SafeChar(id[i]) && id[i] != '\'';
      DoubledWithout(id, '\'');
      assert sql == front + Quoted(id, '\'');
      assert sql[|front|..] == Quoted(id, '\'') + "";
      QuotedReadsBack(id, '\'', "");
    }
  }
}
