/**
 * The escaping primitives both services use to put caller strings into
 * OpenObserve SQL, and the small text helpers the query builders share.
 * The logs and the tracing service each carry an identical copy of
 * `escapeSQLString`; both are modelled by `EscapeSQLString`.
 */
module SqlText {
  import opened Wrappers

  /** `strings.ReplaceAll(s, string(c), by)`: every occurrence of `c` replaced by `by`. */
  function ReplaceAllChar(s: string, c: char, replacement: string): (r: string)
    ensures c !in s ==> r == s
  {
    if s == [] then [] else (if s[0] == c then replacement else [s[0]]) + ReplaceAllChar(s[1..], c, replacement)
  }

  lemma {:induction false} ReplaceAllCharAppend(a: string, b: string, c: char, replacement: string)
    ensures ReplaceAllChar(a + b, c, replacement) == ReplaceAllChar(a, c, replacement) + ReplaceAllChar(b, c, replacement)
  {
    if a == [] {
      assert a + b == b;
    } else {
      assert (a + b)[0] == a[0];
      assert (a + b)[1..] == a[1..] + b;
      ReplaceAllCharAppend(a[1..], b, c, replacement);
    }
  }

  /** `quoteIdentifier`: a stream name inside double quotes, embedded quotes doubled. */
  function QuoteIdentifier(identifier: string): (r: string)
    ensures |r| >= 2 && r[0] == '"' && r[|r| - 1] == '"'
    ensures '"' !in identifier ==> r == "\"" + identifier + "\""
  {
    "\"" + ReplaceAllChar(identifier, '"', "\"\"") + "\""
  }

  /** `escapeSQLString`: backslashes doubled first, then single quotes doubled. */
  function EscapeSQLString(value: string): (r: string)
    ensures '\\' !in value && '\'' !in value ==> r == value
  {
    ReplaceAllChar(ReplaceAllChar(value, '\\', "\\\\"), '\'', "''")
  }

  /** Escaping distributes over concatenation. */
  lemma EscapeAppend(a: string, b: string)
    ensures EscapeSQLString(a + b) == EscapeSQLString(a) + EscapeSQLString(b)
  {
    ReplaceAllCharAppend(a, b, '\\', "\\\\");
    ReplaceAllCharAppend(ReplaceAllChar(a, '\\', "\\\\"), ReplaceAllChar(b, '\\', "\\\\"), '\'', "''");
  }

  /** What `EscapeSQLString` makes of one character. */
  function EscapeChar(x: char): string {
    if x == '\\' then "\\\\" else if x == '\'' then "''" else [x]
  }

  /** The two passes of `EscapeSQLString` amount to escaping character by character. */
  lemma EscapeCons(s: string)
    requires |s| > 0
    ensures EscapeSQLString(s) == EscapeChar(s[0]) + EscapeSQLString(s[1..])
  {
    var first := ReplaceAllChar(s, '\\', "\\\\");
    var head := if s[0] == '\\' then "\\\\" else [s[0]];
    assert first == head + ReplaceAllChar(s[1..], '\\', "\\\\");
    ReplaceAllCharAppend(head, ReplaceAllChar(s[1..], '\\', "\\\\"), '\'', "''");
    if s[0] == '\\' {
      assert ReplaceAllChar(head, '\'', "''") == "\\\\";
    } else if s[0] == '\'' {
      assert ReplaceAllChar(head, '\'', "''") == "''";
    } else {
      assert ReplaceAllChar(head, '\'', "''") == [s[0]];
    }
  }

  /**
   * A reference reader for a quoted token, started just after its opening
   * quote `q`: a doubled `q` stands for one `q`, a lone `q` closes the token,
   * and, when `backslashEscapes` holds, a backslash takes the next character
   * literally. It yields the token's content and the text after the closing
   * quote, or None when the text ends first.
   */
  function ScanQuoted(t: string, q: char, backslashEscapes: bool): Option<(string, string)>
    decreases |t|
  {
    if t == [] then None
    else if backslashEscapes && t[0] == '\\' then
      if |t| < 2 then None else Prepend(t[1], ScanQuoted(t[2..], q, backslashEscapes))
    else if t[0] == q then
      if |t| >= 2 && t[1] == q then Prepend(q, ScanQuoted(t[2..], q, backslashEscapes))
      else Some(([], t[1..]))
    else Prepend(t[0], ScanQuoted(t[1..], q, backslashEscapes))
  }

  function Prepend(c: char, scanned: Option<(string, string)>): Option<(string, string)> {
    match scanned
    case None => None
    case Some(p) => Some(([c] + p.0, p.1))
  }

  /**
   * The escaped text of any value, put between single quotes, reads back as
   * exactly that value, and the literal closes at the quote the builder
   * wrote, never earlier: no caller string can end the literal.
   */
  lemma EscapedLiteralReadsBack(value: string, rest: string)
    requires rest == [] || rest[0] != '\''
    ensures ScanQuoted(EscapeSQLString(value) + "'" + rest, '\'', true) == Some((value, rest))
  {
    EscapeSQLStringPerChar(value);
    PerCharLiteralReadsBack(value, rest);
  }

  /** Escaping character by character, as one pass. */
  function EscapePerChar(value: string): string {
    if value == [] then [] else EscapeChar(value[0]) + EscapePerChar(value[1..])
  }

  lemma {:induction false} EscapeSQLStringPerChar(value: string)
    ensures EscapeSQLString(value) == EscapePerChar(value)
  {
    if value != [] {
      EscapeCons(value);
      EscapeSQLStringPerChar(value[1..]);
    }
  }

  lemma {:induction false} PerCharLiteralReadsBack(value: string, rest: string)
    requires rest == [] || rest[0] != '\''
    ensures ScanQuoted(EscapePerChar(value) + "'" + rest, '\'', true) == Some((value, rest))
  {
    if value == [] {
      ClosingQuoteEndsLiteral(rest);
    } else {
      var tail := EscapePerChar(value[1..]) + "'" + rest;
      PerCharLiteralReadsBack(value[1..], rest);
      assert EscapePerChar(value) + "'" + rest == EscapeChar(value[0]) + tail;
      EscapedCharReadsBack(value[0], tail, value[1..], rest);
      assert [value[0]] + value[1..] == value;
    }
  }

  lemma ClosingQuoteEndsLiteral(rest: string)
    requires rest == [] || rest[0] != '\''
    ensures ScanQuoted(EscapePerChar([]) + "'" + rest, '\'', true) == Some(([], rest))
  {
    var t := "'" + rest;
    assert t[0] == '\'' && t[1..] == rest;
    assert |t| >= 2 ==> t[1] != '\'';
  }

  /** One escaped character in front of a literal's remainder reads back as that character. */
  lemma EscapedCharReadsBack(x: char, tail: string, content: string, rest: string)
    requires ScanQuoted(tail, '\'', true) == Some((content, rest))
    ensures ScanQuoted(EscapeChar(x) + tail, '\'', true) == Some(([x] + content, rest))
  {
    var t := EscapeChar(x) + tail;
    if x == '\\' {
      assert t[0] == '\\' && t[1] == '\\' && t[2..] == tail;
    } else if x == '\'' {
      assert t[0] == '\'' && t[1] == '\'' && t[2..] == tail;
    } else {
      assert t[0] == x && t[1..] == tail;
    }
  }

  /**
   * `quoteIdentifier` never lets the name end the identifier early: read from
   * after its opening quote, the quoted name yields the name itself and
   * closes exactly at its final quote.
   */
  lemma QuotedIdentifierReadsBack(identifier: string, rest: string)
    requires rest == [] || rest[0] != '"'
    ensures ScanQuoted(QuoteIdentifier(identifier)[1..] + rest, '"', false) == Some((identifier, rest))
  {
    assert QuoteIdentifier(identifier)[1..] == ReplaceAllChar(identifier, '"', "\"\"") + "\"";
    DoubledReadsBack(identifier, '"', rest);
  }

  lemma {:induction false} DoubledReadsBack(s: string, q: char, rest: string)
    requires rest == [] || rest[0] != q
    ensures ScanQuoted(ReplaceAllChar(s, q, [q, q]) + [q] + rest, q, false) == Some((s, rest))
  {
    if s == [] {
      assert ReplaceAllChar(s, q, [q, q]) + [q] + rest == [q] + rest;
      assert ([q] + rest)[1..] == rest;
    } else {
      var tail := ReplaceAllChar(s[1..], q, [q, q]) + [q] + rest;
      DoubledReadsBack(s[1..], q, rest);
      var head := if s[0] == q then [q, q] else [s[0]];
      assert ReplaceAllChar(s, q, [q, q]) + [q] + rest == head + tail;
      DoubledCharReadsBack(s[0], q, tail, s[1..], rest);
      assert [s[0]] + s[1..] == s;
    }
  }

  lemma DoubledCharReadsBack(x: char, q: char, tail: string, content: string, rest: string)
    requires ScanQuoted(tail, q, false) == Some((content, rest))
    ensures ScanQuoted((if x == q then [q, q] else [x]) + tail, q, false) == Some(([x] + content, rest))
  {
    var t := (if x == q then [q, q] else [x]) + tail;
    if x == q {
      assert t[0] == q && t[1] == q && t[2..] == tail;
    } else {
      assert t[0] == x && t[1..] == tail;
    }
  }

  /** Regrouping a concatenation, stated once over plain strings. */
  lemma Regroup(a: string, b: string, c: string)
    ensures a + (b + c) == a + b + c
  {
  }

  /** A concatenation splits back at the end of its first part. */
  lemma SplitAppend(a: string, b: string)
    ensures (a + b)[..|a|] == a && (a + b)[|a|..] == b
    ensures |a| > 0 ==> (a + b)[1..] == a[1..] + b
  {
  }

  /** `strings.Join(parts, sep)`. */
  function Join(parts: seq<string>, sep: string): string {
    if |parts| == 0 then ""
    else if |parts| == 1 then parts[0]
    else parts[0] + sep + Join(parts[1..], sep)
  }

  /** Two parts joined: the separator between them. */
  lemma JoinTwo(a: string, b: string, sep: string)
    ensures Join([a, b], sep) == a + sep + b
  {
    assert [a, b][1..] == [b];
  }

  /** The `WHERE` clause of a list query: omitted when there are no conditions. */
  function WhereClause(conditions: seq<string>): (r: string)
    ensures r == "" <==> conditions == []
    ensures conditions != [] ==> r == " WHERE " + Join(conditions, " AND ")
  {
    if |conditions| > 0 then " WHERE " + Join(conditions, " AND ") else ""
  }

  /** 1 when a filter is set, 0 otherwise. */
  function Flag(set_: bool): nat {
    if set_ then 1 else 0
  }

  /** `[c]` when the filter is set, nothing otherwise. */
  function When(set_: bool, condition: string): seq<string> {
    if set_ then [condition] else []
  }

  /** Appending an optional conjunct keeps what was there and puts the conjunct right after it. */
  lemma WhenAppended(c: seq<string>, set_: bool, condition: string)
    ensures |c + When(set_, condition)| == |c| + Flag(set_)
    ensures forall i :: 0 <= i < |c| ==> (c + When(set_, condition))[i] == c[i]
    ensures set_ ==> (c + When(set_, condition))[|c|] == condition
  {
  }

  /** `column = '<escaped value>'`. */
  function EqualsLiteral(column: string, value: string): string {
    column + " = '" + EscapeSQLString(value) + "'"
  }

  /** A fixed prefix without backslashes or quotes may sit outside the escaping. */
  lemma PlainPrefixLiteral(column: string, prefix: string, value: string)
    requires '\\' !in prefix && '\'' !in prefix
    ensures column + " = '" + prefix + EscapeSQLString(value) + "'" == EqualsLiteral(column, prefix + value)
  {
    EscapeAppend(prefix, value);
  }

  /**
   * An equality conjunct reads as the column, ` = '`, and a literal holding
   * exactly the caller's value, closed by the builder's own quote.
   */
  lemma EqualsLiteralReadsBack(column: string, value: string, rest: string)
    requires rest == [] || rest[0] != '\''
    ensures var t := EqualsLiteral(column, value) + rest;
      && t[..|column| + 4] == column + " = '"
      && ScanQuoted(t[|column| + 4..], '\'', true) == Some((value, rest))
  {
    var t := EqualsLiteral(column, value) + rest;
    assert t == (column + " = '") + (EscapeSQLString(value) + "'" + rest);
    assert |column + " = '"| == |column| + 4;
    assert t[|column| + 4..] == EscapeSQLString(value) + "'" + rest;
    EscapedLiteralReadsBack(value, rest);
  }

  /** Slicing a concatenation at an offset inside its second part. */
  lemma SliceInside(a: string, b: string, k: nat)
    requires k <= |b|
    ensures (a + b)[..|a| + k] == a + b[..k] && (a + b)[|a| + k..] == b[k..]
  {
  }

  /**
   * The same for an equality conjunct anywhere in a query: whatever text
   * precedes it, its literal starts right after `column = '` and holds
   * exactly the value.
   */
  lemma ConjunctReadsBack(before: string, column: string, value: string, rest: string)
    requires rest == [] || rest[0] != '\''
    ensures var t := before + EqualsLiteral(column, value) + rest;
      var n := |before| + |column| + 4;
      && t[..n] == before + column + " = '"
      && ScanQuoted(t[n..], '\'', true) == Some((value, rest))
  {
    var u := EqualsLiteral(column, value) + rest;
    EqualsLiteralReadsBack(column, value, rest);
    Regroup(before, EqualsLiteral(column, value), rest);
    SliceInside(before, u, |column| + 4);
    Regroup(before, column, " = '");
  }

  /** One OR-group in parentheses, as the log builders add for a list filter. */
  function AnyOf(alternatives: seq<string>): string {
    "(" + Join(alternatives, " OR ") + ")"
  }

  /** One equality conjunct per value, in order (the indexed loops of the log builders). */
  function EqualsEach(column: string, values: seq<string>): (r: seq<string>)
    ensures |r| == |values|
    ensures forall i :: 0 <= i < |values| ==> r[i] == EqualsLiteral(column, values[i])
  {
    seq(|values|, i requires 0 <= i < |values| => EqualsLiteral(column, values[i]))
  }

  /** The sort whitelist: only these two spellings select ascending order. */
  predicate IsAscending(sortOrder: string) {
    sortOrder == "ASC" || sortOrder == "asc"
  }

  /** A requested page size, defaulted: zero or negative means 100. */
  function DefaultLimit(limit: int): (r: int)
    ensures r > 0
    ensures limit > 0 ==> r == limit
    ensures limit <= 0 ==> r == 100
  {
    if limit <= 0 then 100 else limit
  }
}
