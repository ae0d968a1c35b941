/**
  The shell plan: the immutable value that replaces the calls the checkout
  code makes on its shell builder (`sh.cmd`, `sh.if`/`sh.else`, `sh.cd`,
  `sh.file`, `sh.fold`), together with queries over a plan.
 */
module Shell {

  /** One piece of a command's text. */
  datatype Piece =
    | Lit(text: string)  // a fixed literal written by the builder
    | Raw(text: string)  // a data value interpolated as it is
    | Esc(text: string)  // a data value passed through the shell escaper first

  /** Command text as the builder assembles it, before rendering. */
  type Text = seq<Piece>

  /**
    Execution attributes a command carries. Each flag is true exactly when the
    builder passes the corresponding option (`assert: true`, `retry: true`,
    `timing: false`); false means the option is absent and the executor's
    default applies.
   */
  datatype Attrs = Attrs(asserted: bool, retry: bool, untimed: bool)

  const NoAttrs := Attrs(false, false, false)

  /** A node of the plan. */
  datatype ShellOp =
    | Cmd(text: Text, attrs: Attrs)
    | If(cond: Text, thn: seq<ShellOp>, els: seq<ShellOp>)
    | Cd(dir: string)
    | AppendFile(path: string, line: string, append: bool)
    | Fold(name: string, body: seq<ShellOp>)

  /** The string one piece stands for: only escaped values go through the escaper. */
  function PieceString(p: Piece, escape: string -> string): string
  {
    match p
    case Lit(x) => x
    case Raw(x) => x
    case Esc(x) => escape(x)
  }

  /** The string a text stands for, given the shell escaper. */
  function Render(t: Text, escape: string -> string): string
  {
    if t == [] then ""
    else PieceString(t[0], escape) + Render(t[1..], escape)
  }

  lemma RenderSingle(p: Piece, escape: string -> string)
    ensures Render([p], escape) == PieceString(p, escape)
  {
    assert [p][1..] == [];
  }

  /** Rendering distributes over concatenation of texts. */
  lemma {:induction false} RenderAppend(a: Text, b: Text, escape: string -> string)
    ensures Render(a + b, escape) == Render(a, escape) + Render(b, escape)
    decreases |a|
  {
    if a == [] {
      assert a + b == b;
    } else {
      assert (a + b)[1..] == a[1..] + b;
      RenderAppend(a[1..], b, escape);
    }
  }

  /** Every node of a plan, each node before its children, in plan order. */
  function Nodes(ops: seq<ShellOp>): (r: seq<ShellOp>)
    ensures |r| >= |ops|
    decreases ops
  {
    if ops == [] then []
    else
      [ops[0]]
      + (match ops[0]
         case If(_, t, e) => Nodes(t) + Nodes(e)
         case Fold(_, b) => Nodes(b)
         case _ => [])
      + Nodes(ops[1..])
  }

  /** The nodes of a single operation: itself, then its descendants. */
  lemma NodesSingle(op: ShellOp)
    ensures Nodes([op]) == [op] + (match op
                                   case If(_, t, e) => Nodes(t) + Nodes(e)
                                   case Fold(_, b) => Nodes(b)
                                   case _ => [])
  {
    assert [op][1..] == [];
  }

  /** Walking a concatenation walks each part in turn. */
  lemma {:induction false} NodesAppend(a: seq<ShellOp>, b: seq<ShellOp>)
    ensures Nodes(a + b) == Nodes(a) + Nodes(b)
    decreases |a|
  {
    if a == [] {
      assert a + b == b;
    } else {
      assert (a + b)[0] == a[0];
      assert (a + b)[1..] == a[1..] + b;
      NodesAppend(a[1..], b);
    }
  }

  /** Number of elements of `s` that satisfy `p`. */
  function CountWhere(s: seq<ShellOp>, p: ShellOp -> bool): (n: nat)
    ensures n <= |s|
    ensures n == 0 <==> forall i :: 0 <= i < |s| ==> !p(s[i])
  {
    if s == [] then 0
    else (if p(s[0]) then 1 else 0) + CountWhere(s[1..], p)
  }

  lemma {:induction false} CountWhereAppend(a: seq<ShellOp>, b: seq<ShellOp>, p: ShellOp -> bool)
    ensures CountWhere(a + b, p) == CountWhere(a, p) + CountWhere(b, p)
    decreases |a|
  {
    if a == [] {
      assert a + b == b;
    } else {
      assert (a + b)[0] == a[0];
      assert (a + b)[1..] == a[1..] + b;
      CountWhereAppend(a[1..], b, p);
    }
  }

  predicate IsAppend(op: ShellOp) {
    op.AppendFile?
  }

  /** The lines appended to files, in order, by the append operations among `nodes`. */
  function AppendedLines(nodes: seq<ShellOp>): (lines: seq<string>)
    ensures |lines| == CountWhere(nodes, IsAppend)
  {
    if nodes == [] then []
    else (if nodes[0].AppendFile? then [nodes[0].line] else []) + AppendedLines(nodes[1..])
  }

  lemma {:induction false} AppendedLinesAppend(a: seq<ShellOp>, b: seq<ShellOp>)
    ensures AppendedLines(a + b) == AppendedLines(a) + AppendedLines(b)
    decreases |a|
  {
    if a == [] {
      assert a + b == b;
    } else {
      assert (a + b)[0] == a[0];
      assert (a + b)[1..] == a[1..] + b;
      AppendedLinesAppend(a[1..], b);
    }
  }

  lemma {:induction false} EscapedInAppend(a: Text, b: Text)
    ensures EscapedIn(a + b) == EscapedIn(a) + EscapedIn(b)
    decreases |a|
  {
    if a == [] {
      assert a + b == b;
    } else {
      assert (a + b)[0] == a[0];
      assert (a + b)[1..] == a[1..] + b;
      EscapedInAppend(a[1..], b);
    }
  }

  /** The values a text passes through the escaper, in order. */
  function EscapedIn(t: Text): (vs: seq<string>)
    ensures |vs| <= |t|
    ensures (forall k :: 0 <= k < |t| ==> !t[k].Esc?) ==> vs == []
  {
    if t == [] then []
    else (if t[0].Esc? then [t[0].text] else []) + EscapedIn(t[1..])
  }

  /** The data values a text interpolates without escaping. */
  function RawIn(t: Text): set<string>
  {
    set p | p in t && p.Raw? :: p.text
  }

  /** The text an operation itself carries: a command's text or a conditional's test. */
  function OwnText(op: ShellOp): Text
  {
    match op
    case Cmd(t, _) => t
    case If(c, _, _) => c
    case _ => []
  }

  /** An operation whose own text passes nothing through the escaper. */
  predicate EscapesNothing(op: ShellOp) {
    forall k :: 0 <= k < |OwnText(op)| ==> !OwnText(op)[k].Esc?
  }

  /** The values the given nodes pass through the escaper, in order. */
  function Escaped(nodes: seq<ShellOp>): seq<string>
  {
    if nodes == [] then []
    else EscapedIn(OwnText(nodes[0])) + Escaped(nodes[1..])
  }

  lemma {:induction false} EscapedAppend(a: seq<ShellOp>, b: seq<ShellOp>)
    ensures Escaped(a + b) == Escaped(a) + Escaped(b)
    decreases |a|
  {
    if a == [] {
      assert a + b == b;
    } else {
      var ab := a + b;
      assert ab[0] == a[0];
      assert ab[1..] == a[1..] + b;
      EscapedAppend(a[1..], b);
      calc {
        Escaped(ab);
        EscapedIn(OwnText(a[0])) + Escaped(a[1..] + b);
        EscapedIn(OwnText(a[0])) + (Escaped(a[1..]) + Escaped(b));
        (EscapedIn(OwnText(a[0])) + Escaped(a[1..])) + Escaped(b);
      }
    }
  }

  /** The values the given nodes interpolate without escaping. */
  function Unescaped(nodes: seq<ShellOp>): set<string>
  {
    if nodes == [] then {}
    else RawIn(OwnText(nodes[0])) + Unescaped(nodes[1..])
  }

  lemma {:induction false} UnescapedAppend(a: seq<ShellOp>, b: seq<ShellOp>)
    ensures Unescaped(a + b) == Unescaped(a) + Unescaped(b)
    decreases |a|
  {
    if a == [] {
      assert a + b == b;
    } else {
      assert (a + b)[0] == a[0];
      assert (a + b)[1..] == a[1..] + b;
      UnescapedAppend(a[1..], b);
    }
  }

  lemma EscapedCons(x: ShellOp, rest: seq<ShellOp>)
    ensures Escaped([x] + rest) == EscapedIn(OwnText(x)) + Escaped(rest)
  {
    assert ([x] + rest)[0] == x;
    assert ([x] + rest)[1..] == rest;
  }

  lemma {:induction false} EscapedNone(nodes: seq<ShellOp>)
    requires forall k :: 0 <= k < |nodes| ==> EscapesNothing(nodes[k])
    ensures Escaped(nodes) == []
    decreases |nodes|
  {
    if nodes != [] {
      EscapedNone(nodes[1..]);
    }
  }

  lemma UnescapedCons(x: ShellOp, rest: seq<ShellOp>)
    ensures Unescaped([x] + rest) == RawIn(OwnText(x)) + Unescaped(rest)
  {
    assert ([x] + rest)[0] == x;
    assert ([x] + rest)[1..] == rest;
  }

  /** An operation whose own text interpolates no value unescaped. */
  predicate InterpolatesNothing(op: ShellOp) {
    forall k :: 0 <= k < |OwnText(op)| ==> !OwnText(op)[k].Raw?
  }

  lemma {:induction false} UnescapedNone(nodes: seq<ShellOp>)
    requires forall k :: 0 <= k < |nodes| ==> InterpolatesNothing(nodes[k])
    ensures Unescaped(nodes) == {}
    decreases |nodes|
  {
    if nodes != [] {
      UnescapedNone(nodes[1..]);
      assert RawIn(OwnText(nodes[0])) == {};
    }
  }
}
