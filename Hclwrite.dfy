/** The part of the structured document writer the definitions formatter drives:
    a body is a sequence of unstructured token runs and attribute assignments. */
module Hclwrite {
  import opened Wrappers
  import opened Cty
  import opened Stream

  datatype TokenType = TokenComment | TokenNewline
  datatype Token = Token(kind: TokenType, bytes: string)
  type Tokens = seq<Token>

  datatype Item =
    | Unstructured(tokens: Tokens)
    | Attribute(name: string, value: Value)

  predicate IsAttr(item: Item, name: string)
  {
    item.Attribute? && item.name == name
  }

  predicate HasAttr(items: seq<Item>, name: string)
  {
    exists i :: 0 <= i < |items| && IsAttr(items[i], name)
  }

  /** Setting an attribute rewrites the value of the first attribute of that
      name if there is one, and otherwise adds a new attribute at the end. */
  function SetAttribute(items: seq<Item>, name: string, value: Value): (r: seq<Item>)
    ensures !HasAttr(items, name) ==> r == items + [Attribute(name, value)]
    ensures HasAttr(items, name) ==> |r| == |items| && Attribute(name, value) in r
    ensures HasAttr(items, name) ==>
      forall i :: 0 <= i < |items| ==> if IsAttr(items[i], name) then IsAttr(r[i], name) else r[i] == items[i]
  {
    if items == [] then [Attribute(name, value)]
    else if IsAttr(items[0], name) then [Attribute(name, value)] + items[1..]
    else
      assert HasAttr(items, name) ==> HasAttr(items[1..], name) by {
        if HasAttr(items, name) {
          var i :| 0 <= i < |items| && IsAttr(items[i], name);
          assert IsAttr(items[1..][i - 1], name);
        }
      }
      [items[0]] + SetAttribute(items[1..], name, value)
  }

  /** The assignments of a body, in order, as name/value pairs. */
  function Assignments(items: seq<Item>): seq<(string, Value)>
  {
    if items == [] then [] else ItemAssignments(items[0]) + Assignments(items[1..])
  }

  function ItemAssignments(item: Item): seq<(string, Value)>
  {
    match item
    case Attribute(n, v) => [(n, v)]
    case Unstructured(_) => []
  }

  /** SetAttribute, seen on the assignments alone. */
  function SetPair(pairs: seq<(string, Value)>, name: string, value: Value): seq<(string, Value)>
  {
    if pairs == [] then [(name, value)]
    else if pairs[0].0 == name then [(name, value)] + pairs[1..]
    else [pairs[0]] + SetPair(pairs[1..], name, value)
  }

  lemma {:induction false} AssignmentsAppend(a: seq<Item>, b: seq<Item>)
    ensures Assignments(a + b) == Assignments(a) + Assignments(b)
  {
    if a == [] {
      assert a + b == b;
    } else {
      assert (a + b)[1..] == a[1..] + b;
      AssignmentsAppend(a[1..], b);
    }
  }

  /** Unstructured tokens never change the assignments of a body, and setting an
      attribute acts on the assignments exactly as SetPair does. */
  lemma {:induction false} AssignmentsSetAttribute(items: seq<Item>, name: string, value: Value)
    ensures Assignments(SetAttribute(items, name, value)) == SetPair(Assignments(items), name, value)
  {
    if items == [] {
    } else if IsAttr(items[0], name) {
      assert ([Attribute(name, value)] + items[1..])[1..] == items[1..];
    } else {
      var rest := SetAttribute(items[1..], name, value);
      assert ([items[0]] + rest)[1..] == rest;
      AssignmentsSetAttribute(items[1..], name, value);
      if items[0].Unstructured? {
        assert Assignments(items) == Assignments(items[1..]);
      }
    }
  }

  lemma AssignmentsUnstructured(items: seq<Item>, ts: Tokens)
    ensures Assignments(items + [Unstructured(ts)]) == Assignments(items)
  {
    AssignmentsAppend(items, [Unstructured(ts)]);
  }

  /** The bytes of a token run. */
  function TokensBytes(ts: Tokens): string
  {
    if ts == [] then "" else ts[0].bytes + TokensBytes(ts[1..])
  }

  /** The document text: token runs verbatim, each attribute as `name = value`
      on its own line (column alignment of `=` is not modelled). */
  function Bytes(items: seq<Item>): string
  {
    if items == [] then "" else ItemBytes(items[0]) + Bytes(items[1..])
  }

  function ItemBytes(item: Item): string
  {
    match item
    case Unstructured(ts) => TokensBytes(ts)
    case Attribute(n, v) => n + " = " + Render(v) + "\n"
  }

  /** The root body of a file, updated in place. */
  class Body {
    var items: seq<Item>

    constructor ()
      ensures items == []
    {
      items := [];
    }

    method AppendUnstructuredTokens(ts: Tokens)
      modifies this
      ensures items == old(items) + [Unstructured(ts)]
    {
      items := items + [Unstructured(ts)];
    }

    method SetAttributeValue(name: string, value: Value)
      modifies this
      ensures items == SetAttribute(old(items), name, value)
    {
      items := SetAttribute(items, name, value);
    }
  }

  /** A file owns its root body; edits made through the body are what WriteTo writes. */
  class File {
    const body: Body

    constructor ()
      ensures fresh(body) && body.items == []
    {
      body := new Body();
    }

    /** Writes the whole document in a single write. */
    method WriteTo(w: Writer) returns (err: Option<IoError>)
      modifies w
      ensures w.attempts == old(w.attempts) + 1
      ensures old(w.budget) > 0 ==>
        err == None && w.written == old(w.written) + [Bytes(body.items)] && w.budget == old(w.budget) - 1
      ensures old(w.budget) == 0 ==>
        err == Some(IoError(old(w.attempts))) && w.written == old(w.written) && w.budget == 0
    {
      err := w.Write(Bytes(body.items));
    }
  }
}
