/**
 The quote-aware command line parser.  The scan works character by character on four variables; the
 independent definition of what it computes is a grammar: a command line is a list of gaps, plain
 characters and quoted sections, and its arguments are the non-empty texts between gaps.
 */
module ArgParser {

  datatype Result<T> = Ok(value: T) | Unterminated

  predicate IsQuote(c: char) {
    c == '"' || c == '\''
  }

  // ------------------------------------------------------------------------------------------
  // The scan
  // ------------------------------------------------------------------------------------------

  /** The variables of the scan; `quoteChar` keeps its last value outside quotes. */
  datatype Scan = Scan(args: seq<string>, currentArg: string, inQuote: bool, quoteChar: char)

  function Advance(s: Scan, r: char): Scan {
    if IsQuote(r) then
      if s.inQuote && r == s.quoteChar then s.(inQuote := false)
      else if !s.inQuote then s.(inQuote := true, quoteChar := r)
      else s.(currentArg := s.currentArg + [r])
    else if r == ' ' && !s.inQuote then
      if s.currentArg != "" then s.(args := s.args + [s.currentArg], currentArg := "") else s
    else s.(currentArg := s.currentArg + [r])
  }

  function ScanAll(s: Scan, cmd: string): Scan
    decreases |cmd|
  {
    if cmd == "" then s else ScanAll(Advance(s, cmd[0]), cmd[1..])
  }

  function Collected(s: Scan): seq<string> {
    if s.currentArg != "" then s.args + [s.currentArg] else s.args
  }

  const BLANK := Scan([], "", false, '\0')

  function Parse(cmd: string): Result<seq<string>> {
    var s := ScanAll(BLANK, cmd);
    if s.inQuote then Unterminated else Ok(Collected(s))
  }

  lemma {:induction false} ScanConcat(s: Scan, a: string, b: string)
    ensures ScanAll(s, a + b) == ScanAll(ScanAll(s, a), b)
    decreases |a|
  {
    if a == "" {
      assert a + b == b;
    } else {
      assert (a + b)[1..] == a[1..] + b;
      ScanConcat(Advance(s, a[0]), a[1..], b);
    }
  }

  method ParseCommandLineArgs(cmd: string) returns (r: Result<seq<string>>)
    ensures r == Parse(cmd)
    ensures r.Unterminated? <==> forall ps :: Lexes(ps) ==> Flatten(ps) != cmd
    ensures forall ps :: Lexes(ps) && Flatten(ps) == cmd ==> r == Ok(Words(ps))
  {
    var args: seq<string>, currentArg, inQuote, quoteChar := [], "", false, '\0';
    for i := 0 to |cmd|
      invariant Scan(args, currentArg, inQuote, quoteChar) == ScanAll(BLANK, cmd[..i])
    {
      ghost var before := Scan(args, currentArg, inQuote, quoteChar);
      var c := cmd[i];
      if c == '"' || c == '\'' {
        if inQuote && c == quoteChar {
          inQuote := false;
        } else if !inQuote {
          inQuote := true;
          quoteChar := c;
        } else {
          currentArg := currentArg + [c];
        }
      } else if c == ' ' && !inQuote {
        if currentArg != "" {
          args := args + [currentArg];
          currentArg := "";
        }
      } else {
        currentArg := currentArg + [c];
      }
      assert Scan(args, currentArg, inQuote, quoteChar) == Advance(before, c);
      assert cmd[..i + 1] == cmd[..i] + [c];
      ScanConcat(BLANK, cmd[..i], [c]);
      assert ScanAll(before, [c]) == Advance(before, c);
    }
    assert cmd[..|cmd|] == cmd;
    ParseMeansWords(cmd);
    if currentArg != "" {
      args := args + [currentArg];
    }
    if inQuote {
      return Unterminated;
    }
    return Ok(args);
  }

  // ------------------------------------------------------------------------------------------
  // The grammar
  // ------------------------------------------------------------------------------------------

  datatype Piece = Gap | Plain(c: char) | Quoted(q: char, body: string)

  /** A quoted section runs to the next occurrence of its own quote character. */
  predicate Lexes(ps: seq<Piece>) {
    forall i :: 0 <= i < |ps| ==>
      match ps[i]
      case Gap => true
      case Plain(c) => !IsQuote(c) && c != ' '
      case Quoted(q, body) => IsQuote(q) && q !in body
  }

  function Image(p: Piece): string {
    match p
    case Gap => " "
    case Plain(c) => [c]
    case Quoted(q, body) => [q] + body + [q]
  }

  function Flatten(ps: seq<Piece>): string {
    if ps == [] then "" else Image(ps[0]) + Flatten(ps[1..])
  }

  /** The texts between gaps. */
  function Groups(ps: seq<Piece>): (r: seq<string>)
    ensures |r| > 0
  {
    if ps == [] then [""]
    else
      var rest := Groups(ps[1..]);
      match ps[0]
      case Gap => [""] + rest
      case Plain(c) => [[c] + rest[0]] + rest[1..]
      case Quoted(_, body) => [body + rest[0]] + rest[1..]
  }

  function NonEmpty(words: seq<string>): seq<string> {
    if words == [] then []
    else (if words[0] == "" then [] else [words[0]]) + NonEmpty(words[1..])
  }

  function Words(ps: seq<Piece>): seq<string> {
    NonEmpty(Groups(ps))
  }

  lemma {:induction false} ScanBody(s: Scan, body: string)
    requires s.inQuote && s.quoteChar !in body
    ensures ScanAll(s, body) == s.(currentArg := s.currentArg + body)
    decreases |body|
  {
    if body != "" {
      ScanBody(Advance(s, body[0]), body[1..]);
    }
  }

  lemma {:induction false} QuotedThen(s: Scan, q: char, body: string, rest: string)
    requires !s.inQuote && IsQuote(q) && q !in body
    ensures ScanAll(s, [q] + body + [q] + rest) == ScanAll(Scan(s.args, s.currentArg + body, false, q), rest)
  {
    var open := Advance(s, q);
    var closing := [q] + rest;
    assert ([q] + body + [q] + rest)[1..] == body + closing;
    ScanConcat(open, body, closing);
    ScanBody(open, body);
    assert closing[1..] == rest;
  }

  /** The scan of one piece, from outside quotes. */
  lemma {:induction false} ScanPiece(s: Scan, p: Piece)
    requires !s.inQuote && Lexes([p])
    ensures var t := ScanAll(s, Image(p));
      && !t.inQuote
      && (p.Gap? ==> t.args == Collected(s) && t.currentArg == "")
      && (p.Plain? ==> t.args == s.args && t.currentArg == s.currentArg + [p.c])
      && (p.Quoted? ==> t.args == s.args && t.currentArg == s.currentArg + p.body)
  {
    assert [p][0] == p;
    match p
    case Gap =>
      assert ScanAll(s, " ") == Advance(s, ' ');
    case Plain(c) =>
      assert ScanAll(s, [c]) == Advance(s, c);
    case Quoted(q, body) =>
      QuotedThen(s, q, body, "");
      assert Image(p) + "" == Image(p);
  }

  /** The scan of a lexed command line collects its words after what it had. */
  lemma {:induction false} ScanPieces(s: Scan, ps: seq<Piece>)
    requires !s.inQuote && Lexes(ps)
    ensures !ScanAll(s, Flatten(ps)).inQuote
    ensures Collected(ScanAll(s, Flatten(ps))) ==
              s.args + NonEmpty([s.currentArg + Groups(ps)[0]] + Groups(ps)[1..])
    decreases |ps|
  {
    if ps == [] {
      assert NonEmpty([s.currentArg]) == (if s.currentArg == "" then [] else [s.currentArg]) + NonEmpty([]);
      assert s.currentArg + "" == s.currentArg;
      assert [s.currentArg] + [""][1..] == [s.currentArg];
    } else {
      assert [ps[0]][0] == ps[0];
      ScanPiece(s, ps[0]);
      ScanConcat(s, Image(ps[0]), Flatten(ps[1..]));
      var t := ScanAll(s, Image(ps[0]));
      ScanPieces(t, ps[1..]);
      GroupStep(s, t, ps[0], Groups(ps), Groups(ps[1..]));
    }
  }

  lemma {:induction false} GroupStep(s: Scan, t: Scan, p: Piece, all: seq<string>, rest: seq<string>)
    requires |rest| > 0
    requires all == match p
      case Gap => [""] + rest
      case Plain(c) => [[c] + rest[0]] + rest[1..]
      case Quoted(_, body) => [body + rest[0]] + rest[1..]
    requires p.Gap? ==> t.args == Collected(s) && t.currentArg == ""
    requires !p.Gap? ==> t.args == s.args && t.currentArg == s.currentArg + if p.Plain? then [p.c] else p.body
    ensures s.args + NonEmpty([s.currentArg + all[0]] + all[1..])
         == t.args + NonEmpty([t.currentArg + rest[0]] + rest[1..])
  {
    var x, y := [s.currentArg + all[0]] + all[1..], [t.currentArg + rest[0]] + rest[1..];
    if p.Gap? {
      assert y == rest by {
        assert t.currentArg + rest[0] == rest[0];
      }
      assert x == [s.currentArg] + rest by {
        assert s.currentArg + "" == s.currentArg && all[1..] == rest;
      }
      NonEmptyCons(s.currentArg, rest);
    } else {
      assert x == y by {
        assert s.currentArg + all[0] == t.currentArg + rest[0] && all[1..] == rest[1..];
      }
    }
  }

  lemma {:induction false} NonEmptyCons(w: string, rest: seq<string>)
    ensures NonEmpty([w] + rest) == (if w == "" then [] else [w]) + NonEmpty(rest)
  {
    assert ([w] + rest)[1..] == rest;
  }

  /** The position of the first `q`, or the length. */
  function Close(s: string, q: char): (k: nat)
    ensures k <= |s| && q !in s[..k] && (k < |s| ==> s[k] == q)
  {
    if s == "" || s[0] == q then 0
    else
      var k := 1 + Close(s[1..], q);
      assert s[..k] == [s[0]] + s[1..][..k - 1];
      k
  }

  /** A command line whose scan ends outside quotes has a lexing. */
  lemma {:induction false} Lex(s: Scan, cmd: string) returns (ps: seq<Piece>)
    requires !s.inQuote && !ScanAll(s, cmd).inQuote
    ensures Lexes(ps) && Flatten(ps) == cmd
    decreases |cmd|
  {
    if cmd == "" {
      ps := [];
    } else {
      var p, n := LexOne(s, cmd);
      assert cmd == Image(p) + cmd[n..];
      ScanConcat(s, Image(p), cmd[n..]);
      ScanPiece(s, p);
      var rest := Lex(ScanAll(s, Image(p)), cmd[n..]);
      ps := [p] + rest;
      assert ps[1..] == rest;
      assert [p][0] == p;
    }
  }

  lemma {:induction false} LexOne(s: Scan, cmd: string) returns (p: Piece, n: nat)
    requires cmd != "" && !s.inQuote && !ScanAll(s, cmd).inQuote
    ensures 0 < n <= |cmd| && Lexes([p]) && cmd[..n] == Image(p)
  {
    var c := cmd[0];
    if c == ' ' {
      p, n := Gap, 1;
    } else if !IsQuote(c) {
      p, n := Plain(c), 1;
    } else {
      var tail := cmd[1..];
      var k := Close(tail, c);
      if k == |tail| {
        assert tail[..k] == tail;
        ScanBody(Advance(s, c), tail);
        assert false;
      }
      p, n := Quoted(c, tail[..k]), k + 2;
      assert cmd[..n] == [c] + tail[..k] + [c];
    }
  }

  /**
   What parsing means.  It fails exactly on the command lines that have no lexing, which are those whose
   scan ends inside a quote; on the others it returns the words of every lexing there is.
   */
  lemma {:induction false} ParseMeansWords(cmd: string)
    ensures Parse(cmd).Unterminated? <==> forall ps :: Lexes(ps) ==> Flatten(ps) != cmd
    ensures forall ps :: Lexes(ps) && Flatten(ps) == cmd ==> Parse(cmd) == Ok(Words(ps))
  {
    forall ps | Lexes(ps) && Flatten(ps) == cmd ensures Parse(cmd) == Ok(Words(ps)) {
      ParsePieces(ps);
    }
    if !ScanAll(BLANK, cmd).inQuote {
      var ps := Lex(BLANK, cmd);
    }
  }

  lemma {:induction false} ParsePieces(ps: seq<Piece>)
    requires Lexes(ps)
    ensures Parse(Flatten(ps)) == Ok(Words(ps))
  {
    ScanPieces(BLANK, ps);
    var g := Groups(ps);
    assert BLANK.currentArg + g[0] == g[0];
    assert [BLANK.currentArg + g[0]] + g[1..] == g;
    assert BLANK.args + Words(ps) == Words(ps);
  }

  // ------------------------------------------------------------------------------------------
  // Composition and the round trip
  // ------------------------------------------------------------------------------------------

  lemma {:induction false} FlattenConcat(a: seq<Piece>, b: seq<Piece>)
    ensures Flatten(a + b) == Flatten(a) + Flatten(b)
    decreases |a|
  {
    if a == [] {
      assert a + b == b;
    } else {
      assert (a + b)[1..] == a[1..] + b;
      FlattenConcat(a[1..], b);
    }
  }

  lemma {:induction false} NonEmptyConcat(a: seq<string>, b: seq<string>)
    ensures NonEmpty(a + b) == NonEmpty(a) + NonEmpty(b)
    decreases |a|
  {
    if a == [] {
      assert a + b == b;
    } else {
      assert (a + b)[1..] == a[1..] + b;
      NonEmptyConcat(a[1..], b);
    }
  }

  lemma {:induction false} GroupsAtGap(a: seq<Piece>, b: seq<Piece>)
    ensures Groups(a + [Gap] + b) == Groups(a) + Groups(b)
    decreases |a|
  {
    var all := a + [Gap] + b;
    if a == [] {
      assert all[1..] == b;
    } else {
      assert all[1..] == a[1..] + [Gap] + b;
      GroupsAtGap(a[1..], b);
    }
  }

  /** Parsing distributes over an unquoted space between command lines that parse. */
  lemma {:induction false} ParseDistributes(a: string, b: string)
    requires Parse(a).Ok? && Parse(b).Ok?
    ensures Parse(a + " " + b) == Ok(Parse(a).value + Parse(b).value)
  {
    var p := Lex(BLANK, a);
    var q := Lex(BLANK, b);
    ParsePieces(p);
    ParsePieces(q);
    var all := p + [Gap] + q;
    ParsePieces(all);
    FlattenConcat(p + [Gap], q);
    FlattenConcat(p, [Gap]);
    assert Flatten([Gap]) == " " + Flatten([]) == " ";
    assert Flatten(all) == a + " " + b;
    GroupsAtGap(p, q);
    NonEmptyConcat(Groups(p), Groups(q));
  }

  /** An argument in quotes of one kind, except for those that it has itself, which stand in quotes of the other. */
  function QuoteWith(arg: string, q: char, r: char): string
    decreases |arg|
  {
    var k := Close(arg, q);
    if k == |arg| then [q] + arg + [q] + []
    else [q] + arg[..k] + [q] + ([r] + [q] + [r] + QuoteWith(arg[k + 1..], q, r))
  }

  function Quote(arg: string): string {
    QuoteWith(arg, '\'', '"')
  }

  function Render(args: seq<string>): string {
    if args == [] then "" else Quote(args[0]) + " " + Render(args[1..])
  }

  /** Two adjacent quoted sections, with the quote characters as parameters. */
  lemma {:induction false} SectionsThen(s: Scan, q: char, a: string, r: char, b: string, rest: string)
    requires !s.inQuote && IsQuote(q) && q !in a && IsQuote(r) && r !in b
    ensures ScanAll(s, [q] + a + [q] + ([r] + b + [r] + rest))
         == ScanAll(Scan(s.args, s.currentArg + a + b, false, r), rest)
  {
    QuotedThen(s, q, a, [r] + b + [r] + rest);
    QuotedThen(Scan(s.args, s.currentArg + a, false, q), r, b, rest);
  }

  /** The scan has read `arg` into the current argument, and nothing else has changed. */
  predicate ReadInto(s: Scan, arg: string, t: Scan) {
    !t.inQuote && t.args == s.args && t.currentArg == s.currentArg + arg
  }

  lemma {:induction false} ReadOn(s: Scan, q: char, head: string, r: char, tail: string, rest: string, u: Scan)
    requires !s.inQuote && IsQuote(q) && q !in head && IsQuote(r) && q != r
    requires u == Scan(s.args, s.currentArg + head + [q], false, r) && ReadInto(u, rest, ScanAll(u, tail))
    ensures ReadInto(s, head + [q] + rest, ScanAll(s, [q] + head + [q] + ([r] + [q] + [r] + tail)))
  {
    SectionsThen(s, q, head, r, [q], tail);
    assert s.currentArg + head + [q] + rest == s.currentArg + (head + [q] + rest);
  }

  /** A quoted argument is one word, with nothing left open. */
  lemma {:induction false} QuoteScans(s: Scan, arg: string, q: char, r: char)
    requires !s.inQuote && IsQuote(q) && IsQuote(r) && q != r
    ensures ReadInto(s, arg, ScanAll(s, QuoteWith(arg, q, r)))
    decreases |arg|
  {
    var k := Close(arg, q);
    if k == |arg| {
      assert arg[..k] == arg;
      QuotedThen(s, q, arg, []);
    } else {
      var head, rest := arg[..k], arg[k + 1..];
      var u := Scan(s.args, s.currentArg + head + [q], false, r);
      QuoteScans(u, rest, q, r);
      ReadOn(s, q, head, r, QuoteWith(rest, q, r), rest, u);
      assert arg == head + [q] + rest;
    }
  }

  /** For every list of arguments, parsing the quoted rendering returns the non-empty ones. */
  lemma {:induction false} ParseRendered(args: seq<string>)
    ensures Parse(Render(args)) == Ok(NonEmpty(args))
    decreases |args|
  {
    if args != [] {
      ParseRendered(args[1..]);
      QuoteScans(BLANK, args[0], '\'', '"');
      assert BLANK.currentArg + args[0] == args[0];
      assert BLANK.args + [args[0]] == [args[0]];
      assert Parse(Quote(args[0])) == Ok(if args[0] == "" then [] else [args[0]]);
      ParseDistributes(Quote(args[0]), Render(args[1..]));
    }
  }

  /** The round trip is exact if and only if no argument is empty. */
  lemma {:induction false} RoundTrip(args: seq<string>)
    ensures Parse(Render(args)) == Ok(args) <==> "" !in args
  {
    ParseRendered(args);
    NonEmptyKeeps(args);
  }

  lemma {:induction false} NonEmptyKeeps(args: seq<string>)
    ensures |NonEmpty(args)| <= |args|
    ensures "" !in NonEmpty(args)
    ensures "" !in args ==> NonEmpty(args) == args
    decreases |args|
  {
    if args != [] {
      NonEmptyKeeps(args[1..]);
      assert args == [args[0]] + args[1..];
    }
  }
}
