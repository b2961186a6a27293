/**
 * The permission expression of `check` in lib/rbac.js: a string such as
 * "read, write && publish", or an array of such strings and of token arrays,
 * read as an OR of AND-groups of permission names.
 */
module PermissionExpr {
  import opened Strings

  /** One element of an array expression: a string still to split on "&&", or an array of tokens. */
  datatype Item = Conjunction(text: string) | Tokens(list: seq<string>)

  /** A permission expression: a single string, or an array of items. */
  datatype Expr = Text(text: string) | Items(items: seq<Item>)

  /** Every token of `list`, trimmed. */
  function TrimAll(list: seq<string>): (r: seq<string>)
    ensures |r| == |list|
    ensures forall k :: 0 <= k < |r| ==> r[k] == Trim(list[k])
  {
    if |list| == 0 then [] else [Trim(list[0])] + TrimAll(list[1..])
  }

  /** The AND-group of one item: an array's tokens trimmed, or a string's "&&"-pieces trimmed. */
  function Group(item: Item): seq<string>
  {
    match item
    case Conjunction(text) => TrimAll(Split(text, "&&"))
    case Tokens(list) => TrimAll(list)
  }

  /** The OR-list of AND-groups: a string is first split on ",", each piece then read as a Conjunction. */
  function Parse(e: Expr): (groups: seq<seq<string>>)
    ensures e.Items? ==> |groups| == |e.items|
    ensures e.Text? ==> |groups| == |Split(e.text, ",")|
  {
    Groups(Alternatives(e))
  }

  /** The items of an expression: a string's ","-pieces, or the array's own elements. */
  function Alternatives(e: Expr): seq<Item>
  {
    match e
    case Text(text) => Pieces(Split(text, ","))
    case Items(items) => items
  }

  /** Each piece as a Conjunction item. */
  function Pieces(pieces: seq<string>): (items: seq<Item>)
    ensures |items| == |pieces|
    ensures forall k :: 0 <= k < |items| ==> items[k] == Conjunction(pieces[k])
  {
    if |pieces| == 0 then [] else [Conjunction(pieces[0])] + Pieces(pieces[1..])
  }

  /** The group of every item, in order. */
  function Groups(items: seq<Item>): (groups: seq<seq<string>>)
    ensures |groups| == |items|
    ensures forall k :: 0 <= k < |groups| ==> groups[k] == Group(items[k])
  {
    if |items| == 0 then [] else [Group(items[0])] + Groups(items[1..])
  }

  /** A token is trimmed: it neither starts nor ends with white space. */
  predicate Trimmed(t: string)
  {
    t == [] || (!IsSpace(t[0]) && !IsSpace(t[|t| - 1]))
  }

  /** Every token of every parsed group is trimmed. */
  lemma ParsedTokensTrimmed(e: Expr)
    ensures forall g, t :: g in Parse(e) && t in g ==> Trimmed(t)
  {
    var items := Alternatives(e);
    var groups := Groups(items);
    forall k | 0 <= k < |groups| ensures forall t :: t in groups[k] ==> Trimmed(t) {
      GroupTrimmed(items[k]);
    }
  }

  /** Every token of one group is trimmed. */
  lemma GroupTrimmed(item: Item)
    ensures forall t :: t in Group(item) ==> Trimmed(t)
  {
    var list := match item case Conjunction(text) => Split(text, "&&") case Tokens(list) => list;
    var r := TrimAll(list);
    forall t | t in r ensures Trimmed(t) {
      var j :| 0 <= j < |r| && r[j] == t;
      assert t == Trim(list[j]);
    }
  }

  /** A string gives one group more than it has commas, and every group has at least one token. */
  lemma TextGroupCount(text: string)
    ensures |Parse(Text(text))| == Occurrences(text, ',') + 1
    ensures forall k :: 0 <= k < |Parse(Text(text))| ==> |Parse(Text(text))[k]| >= 1
  {
    SplitCount(text, ',');
  }

  /** No token parsed from a string contains a comma. */
  lemma TextTokensCommaFree(text: string)
    ensures forall g, t :: g in Parse(Text(text)) && t in g ==> ',' !in t
  {
    var pieces := Split(text, ",");
    var parsed := Parse(Text(text));
    forall k | 0 <= k < |parsed| ensures forall t :: t in parsed[k] ==> ',' !in t {
      assert parsed[k] == TrimAll(Split(pieces[k], "&&"));
      PieceTokensCommaFree(pieces[k]);
    }
  }

  /** The tokens of one comma-free piece are comma-free. */
  lemma PieceTokensCommaFree(piece: string)
    requires !Contains(piece, ",")
    ensures forall t :: t in TrimAll(Split(piece, "&&")) ==> ',' !in t
  {
    CommaFreePiece(piece);
    var parts := Split(piece, "&&");
    forall j | 0 <= j < |parts| ensures ',' !in Trim(parts[j]) {
      JoinedCommaFree(parts, "&&", j);
      TrimKeeps(parts[j], ',');
    }
  }

  /** A piece of a comma split contains no comma. */
  lemma CommaFreePiece(piece: string)
    requires !Contains(piece, ",")
    ensures ',' !in piece
  {
    if ',' in piece {
      var j :| 0 <= j < |piece| && piece[j] == ',';
      assert piece[j..j + 1] == ",";
      assert IsAt(piece, ",", j);
    }
  }

  /** A character missing from a join is missing from each piece. */
  lemma {:induction false} JoinedCommaFree(parts: seq<string>, sep: string, j: nat)
    requires j < |parts|
    requires ',' !in Join(parts, sep)
    ensures ',' !in parts[j]
    decreases |parts|
  {
    if |parts| > 1 {
      assert Join(parts, sep) == parts[0] + sep + Join(parts[1..], sep);
      if j > 0 {
        JoinedCommaFree(parts[1..], sep, j - 1);
      }
    }
  }

  /** Trimming removes characters, it adds none. */
  lemma TrimKeeps(s: string, c: char)
    requires c !in s
    ensures c !in Trim(s)
  {
  }

  /** The string form of a list of groups: tokens joined by "&&", groups by ",". */
  function Render(groups: seq<seq<string>>): string
  {
    Join(JoinEach(groups), ",")
  }

  /** Each group joined by "&&". */
  function JoinEach(groups: seq<seq<string>>): (r: seq<string>)
    ensures |r| == |groups|
    ensures forall k :: 0 <= k < |r| ==> r[k] == Join(groups[k], "&&")
  {
    if |groups| == 0 then [] else [Join(groups[0], "&&")] + JoinEach(groups[1..])
  }

  /** A token that can be written inside a string expression and read back unchanged. */
  predicate Plain(t: string)
  {
    Trimmed(t) && ',' !in t && '&' !in t
  }

  /** One non-empty group of plain tokens survives joining by "&&", splitting and trimming. */
  lemma GroupRoundTrip(g: seq<string>)
    requires |g| >= 1
    requires forall j :: 0 <= j < |g| ==> Plain(g[j])
    ensures TrimAll(Split(Join(g, "&&"), "&&")) == g
  {
    forall j | 0 <= j < |g| ensures "&&"[0] !in g[j] {
      assert '&' !in g[j];
    }
    SplitJoin(g, "&&");
    TrimAllTrimmed(g);
  }

  /** Trimming tokens that are already trimmed changes nothing. */
  lemma {:induction false} TrimAllTrimmed(g: seq<string>)
    requires forall j :: 0 <= j < |g| ==> Trimmed(g[j])
    ensures TrimAll(g) == g
    decreases |g|
  {
    if |g| > 0 {
      var rest := g[1..];
      assert forall j :: 0 <= j < |rest| ==> Trimmed(rest[j]) by {
        forall j | 0 <= j < |rest| ensures Trimmed(rest[j]) {
          assert rest[j] == g[j + 1];
        }
      }
      TrimAllTrimmed(rest);
      TrimUnspaced(g[0]);
      assert TrimAll(g) == [g[0]] + rest;
      HeadTail(g);
    }
  }

  /** A non-empty sequence is its head followed by its tail. */
  lemma HeadTail<T>(s: seq<T>)
    requires |s| > 0
    ensures [s[0]] + s[1..] == s
  {
  }

  /**
   * Parsing the string form of non-empty groups of plain tokens gives the
   * groups back: "," separates the OR-alternatives and "&&" the tokens of
   * one alternative.
   */
  lemma ParseRender(groups: seq<seq<string>>)
    requires |groups| >= 1
    requires forall k :: 0 <= k < |groups| ==> |groups[k]| >= 1
    requires forall g, t :: g in groups && t in g ==> Plain(t)
    ensures Parse(Text(Render(groups))) == groups
  {
    var joined := JoinEach(groups);
    forall k | 0 <= k < |joined| ensures ',' !in joined[k] {
      forall j | 0 <= j < |groups[k]| ensures ',' !in groups[k][j] {
        assert groups[k] in groups && groups[k][j] in groups[k];
      }
      JoinAvoids(groups[k], "&&", ',');
    }
    SplitJoin(joined, ",");
    var parsed := Parse(Text(Render(groups)));
    assert |parsed| == |groups|;
    forall k | 0 <= k < |groups| ensures parsed[k] == groups[k] {
      assert parsed[k] == TrimAll(Split(joined[k], "&&"));
      forall j | 0 <= j < |groups[k]| ensures Plain(groups[k][j]) {
        assert groups[k] in groups && groups[k][j] in groups[k];
      }
      GroupRoundTrip(groups[k]);
    }
  }
}
