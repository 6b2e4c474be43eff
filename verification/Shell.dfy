/**
 What `sh -c` does to the double-quoted listener overrides of the launch command: it replaces
 `$(cat <file>)` by the file's content and `$NAME` by the variable's value. Neither is expanded
 again. Texts with other shell characters are outside this model.
 */
module Shell {
  import opened Text

  /** Variables of the container and its files, without trailing newlines; a missing one is empty. */
  datatype Environment = Environment(files: map<string, string>, variables: map<string, string>)

  function Lookup(m: map<string, string>, key: string): string
  {
    if key in m then m[key] else ""
  }

  predicate NameChar(c: char)
  {
    'A' <= c <= 'Z' || 'a' <= c <= 'z' || '0' <= c <= '9' || c == '_'
  }

  /** The longest variable name that `s` starts with. */
  function Name(s: string): (name: string)
    ensures name <= s
  {
    if s == "" || !NameChar(s[0]) then ""
    else
      assert s == [s[0]] + s[1..];
      [s[0]] + Name(s[1..])
  }

  const CAT := "$(cat "

  function Expand(s: string, env: Environment): string
    decreases |s|
  {
    if s == "" then ""
    else if CAT <= s && CutFirst(s[|CAT|..], ")").Some? then
      var (path, rest) := CutFirst(s[|CAT|..], ")").value;
      Lookup(env.files, path) + Expand(rest, env)
    else if s[0] == '$' && Name(s[1..]) != "" then
      Lookup(env.variables, Name(s[1..])) + Expand(s[1 + |Name(s[1..])|..], env)
    else [s[0]] + Expand(s[1..], env)
  }

  /** No character of `s` means anything inside double quotes. */
  predicate Literal(s: string)
  {
    '$' !in s && '`' !in s && '\\' !in s && '"' !in s
  }

  // ---------- how each form expands ----------

  lemma {:induction false} LiteralExpands(s: string, rest: string, env: Environment)
    requires '$' !in s
    ensures Expand(s + rest, env) == s + Expand(rest, env)
  {
    if s == "" {
      assert s + rest == rest;
    } else {
      assert (s + rest)[1..] == s[1..] + rest;
      assert (s + rest)[0] != '$' && CAT[0] == '$';
      LiteralExpands(s[1..], rest, env);
      assert s == [s[0]] + s[1..];
    }
  }

  lemma CatExpands(path: string, rest: string, env: Environment)
    requires ')' !in path
    ensures Expand(CAT + path + ")" + rest, env) == Lookup(env.files, path) + Expand(rest, env)
  {
    assert (CAT + path + ")" + rest)[|CAT|..] == path + ")" + rest;
    NoFirstCut(path, ")");
    CutFirstAt(path, ")", rest);
  }

  lemma {:induction false} NameAt(name: string, rest: string)
    requires forall i | 0 <= i < |name| :: NameChar(name[i])
    requires rest != "" && !NameChar(rest[0])
    ensures Name(name + rest) == name
  {
    if name == "" {
      assert name + rest == rest;
    } else {
      assert (name + rest)[1..] == name[1..] + rest;
      NameAt(name[1..], rest);
    }
  }

  lemma VariableExpands(name: string, stop: char, rest: string, env: Environment)
    requires name != "" && forall i | 0 <= i < |name| :: NameChar(name[i])
    requires !NameChar(stop) && stop != '$'
    ensures Expand("$" + name + [stop] + rest, env) == Lookup(env.variables, name) + [stop] + Expand(rest, env)
  {
    var s, tail := "$" + name + [stop] + rest, [stop] + rest;
    assert s[1..] == name + tail;
    assert s[1] == name[0] != '(' == CAT[1];
    NameAt(name, tail);
    assert s[1 + |name|..] == tail;
    LiteralExpands([stop], rest, env);
  }

  // ---------- texts made of such forms ----------

  datatype Piece = Plain(text: string) | File(path: string) | Variable(name: string, stop: char)
  {
    predicate Valid()
    {
      match this
      case Plain(text) => '$' !in text
      case File(path) => ')' !in path
      case Variable(name, stop) =>
        name != "" && (forall i | 0 <= i < |name| :: NameChar(name[i])) && !NameChar(stop) && stop != '$'
    }

    function Text(): string
    {
      match this
      case Plain(text) => text
      case File(path) => CAT + path + ")"
      case Variable(name, stop) => "$" + name + [stop]
    }

    function Result(env: Environment): string
    {
      match this
      case Plain(text) => text
      case File(path) => Lookup(env.files, path)
      case Variable(name, stop) => Lookup(env.variables, name) + [stop]
    }
  }

  function Show(pieces: seq<Piece>): string
  {
    if pieces == [] then "" else pieces[0].Text() + Show(pieces[1..])
  }

  function Results(pieces: seq<Piece>, env: Environment): string
  {
    if pieces == [] then "" else pieces[0].Result(env) + Results(pieces[1..], env)
  }

  /** The shell turns a text made of valid pieces into their results. */
  lemma {:induction false} PiecesExpand(pieces: seq<Piece>, env: Environment)
    requires forall i | 0 <= i < |pieces| :: pieces[i].Valid()
    ensures Expand(Show(pieces), env) == Results(pieces, env)
  {
    if pieces != [] {
      var rest := Show(pieces[1..]);
      match pieces[0] {
        case Plain(text) => LiteralExpands(text, rest, env);
        case File(path) => CatExpands(path, rest, env);
        case Variable(name, stop) => VariableExpands(name, stop, rest, env);
      }
      PiecesExpand(pieces[1..], env);
    }
  }

  lemma {:induction false} ShowConcat(a: seq<Piece>, b: seq<Piece>)
    ensures Show(a + b) == Show(a) + Show(b)
  {
    if a == [] {
      assert a + b == b;
    } else {
      assert (a + b)[0] == a[0] && (a + b)[1..] == a[1..] + b;
      ShowConcat(a[1..], b);
      Associative(a[0].Text(), Show(a[1..]), Show(b));
    }
  }

  lemma {:induction false} ResultsConcat(a: seq<Piece>, b: seq<Piece>, env: Environment)
    ensures Results(a + b, env) == Results(a, env) + Results(b, env)
  {
    if a == [] {
      assert a + b == b;
    } else {
      assert (a + b)[0] == a[0] && (a + b)[1..] == a[1..] + b;
      ResultsConcat(a[1..], b, env);
      Associative(a[0].Result(env), Results(a[1..], env), Results(b, env));
    }
  }

  lemma Associative(a: string, b: string, c: string)
    ensures a + (b + c) == a + b + c
  {
  }

  /** The pieces of a separator list. */
  function JoinPieces(items: seq<seq<Piece>>, sep: char): seq<Piece>
  {
    if |items| == 0 then []
    else if |items| == 1 then items[0]
    else items[0] + [Plain([sep])] + JoinPieces(items[1..], sep)
  }

  lemma {:induction false} JoinPiecesValid(items: seq<seq<Piece>>, sep: char)
    requires sep != '$'
    requires forall i, j | 0 <= i < |items| && 0 <= j < |items[i]| :: items[i][j].Valid()
    ensures forall i | 0 <= i < |JoinPieces(items, sep)| :: JoinPieces(items, sep)[i].Valid()
  {
    if |items| > 1 {
      JoinPiecesValid(items[1..], sep);
    }
  }

  lemma {:induction false} JoinPiecesText(items: seq<seq<Piece>>, texts: seq<string>, results: seq<string>, sep: char,
                                          env: Environment)
    requires |items| == |texts| == |results|
    requires forall i | 0 <= i < |items| :: Show(items[i]) == texts[i] && Results(items[i], env) == results[i]
    ensures Show(JoinPieces(items, sep)) == Join(texts, sep)
    ensures Results(JoinPieces(items, sep), env) == Join(results, sep)
  {
    if |items| > 1 {
      JoinPiecesText(items[1..], texts[1..], results[1..], sep, env);
      ShowConcat(items[0], [Plain([sep])]);
      ShowConcat(items[0] + [Plain([sep])], JoinPieces(items[1..], sep));
      ResultsConcat(items[0], [Plain([sep])], env);
      ResultsConcat(items[0] + [Plain([sep])], JoinPieces(items[1..], sep), env);
      assert Show([Plain([sep])]) == [sep] && Results([Plain([sep])], env) == [sep];
    }
  }

  /** A separator list of valid items expands item by item. */
  lemma ListExpands(items: seq<seq<Piece>>, texts: seq<string>, results: seq<string>, sep: char, env: Environment)
    requires |items| == |texts| == |results| && sep != '$'
    requires forall i, j | 0 <= i < |items| && 0 <= j < |items[i]| :: items[i][j].Valid()
    requires forall i | 0 <= i < |items| :: Show(items[i]) == texts[i] && Results(items[i], env) == results[i]
    ensures Expand(Join(texts, sep), env) == Join(results, sep)
  {
    JoinPiecesValid(items, sep);
    JoinPiecesText(items, texts, results, sep, env);
    PiecesExpand(JoinPieces(items, sep), env);
  }

  lemma LiteralTextExpands(s: string, env: Environment)
    requires '$' !in s
    ensures Expand(s, env) == s
  {
    LiteralExpands(s, "", env);
    assert s + "" == s;
  }
}
