/** The streaming check of a JSON document: nesting depth and repeated keys, on tokens. */
module JsonProfile {
  import opened Wrappers

  const MAX_DEPTH := 64

  datatype Token = OpenObject | CloseObject | OpenArray | CloseArray | Text(text: string) | Scalar

  predicate Closes(token: Token) { token.CloseObject? || token.CloseArray? }

  // ---- Documents

  datatype Json = String(text: string) | Plain | Array(items: seq<Json>) | Object(fields: seq<Field>)
  datatype Field = Field(name: string, value: Json)

  function Tokens(v: Json): (tokens: seq<Token>)
    ensures tokens != [] && !Closes(tokens[0])
    decreases v
  {
    match v
    case String(text) => [Text(text)]
    case Plain => [Scalar]
    case Array(items) => [OpenArray] + ItemTokens(items) + [CloseArray]
    case Object(fields) => [OpenObject] + FieldTokens(fields) + [CloseObject]
  }

  function ItemTokens(items: seq<Json>): seq<Token>
    decreases items
  {
    if items == [] then [] else Tokens(items[0]) + ItemTokens(items[1..])
  }

  function FieldTokens(fields: seq<Field>): seq<Token>
    decreases fields
  {
    if fields == [] then [] else [Text(fields[0].name)] + Tokens(fields[0].value) + FieldTokens(fields[1..])
  }

  /** Every node lies within the depth limit, and no object repeats a key. */
  predicate Fits(v: Json, depth: nat)
    decreases v
  {
    depth <= MAX_DEPTH &&
    match v
    case Array(items) => forall i :: 0 <= i < |items| ==> Fits(items[i], depth + 1)
    case Object(fields) =>
      (forall i :: 0 <= i < |fields| ==> Fits(fields[i].value, depth + 1)) &&
      forall i, j :: 0 <= i < j < |fields| ==> fields[i].name != fields[j].name
    case _ => true
  }

  // ---- The check, on any stream of tokens

  /** What is left after one value was checked; `None` is a refusal. */
  function Check(tokens: seq<Token>, depth: nat): (left: Option<seq<Token>>)
    ensures left.Some? ==> |left.value| < |tokens|
    decreases |tokens|, 1
  {
    if depth > MAX_DEPTH || tokens == [] || Closes(tokens[0]) then None
    else if tokens[0].OpenObject? ||
        tokens[0].OpenArray? then CheckMembers(tokens[1..], tokens[0].OpenObject?, {}, depth)
    else Some(tokens[1..])
  }

  function CheckMembers(tokens: seq<Token>, inObject: bool, seen: set<string>, depth: nat): (left: Option<seq<Token>>)
    ensures left.Some? ==> |left.value| < |tokens|
    decreases |tokens|, 2
  {
    if tokens == [] then None
    else if Closes(tokens[0]) then if tokens[0].CloseObject? == inObject then Some(tokens[1..]) else None
    else if inObject then
      if !tokens[0].Text? || tokens[0].text in seen then None else
      match Check(tokens[1..], depth + 1)
      case None => None
      case Some(left) => CheckMembers(left, true, seen + {tokens[0].text}, depth)
    else
      match Check(tokens, depth + 1)
      case None => None
      case Some(left) => CheckMembers(left, false, seen, depth)
  }

  // ---- The check on the tokens of a document

  ghost predicate ItemsFit(items: seq<Json>, depth: nat) { forall i :: 0 <= i < |items| ==> Fits(items[i], depth) }

  ghost predicate FieldsFit(fields: seq<Field>, seen: set<string>, depth: nat) {
    (forall i :: 0 <= i < |fields| ==> Fits(fields[i].value, depth) && fields[i].name !in seen) &&
    forall i, j :: 0 <= i < j < |fields| ==> fields[i].name != fields[j].name
  }

  /** On the tokens of a document followed by anything, the check accepts exactly the documents that fit, and
      consumes exactly their tokens. */
  lemma {:induction false} CheckIsTree(v: Json, tail: seq<Token>, depth: nat)
    ensures Check(Tokens(v) + tail, depth) == if Fits(v, depth) then Some(tail) else None
    decreases v, 1
  {
    var tokens := Tokens(v) + tail;
    assert tokens[0] == Tokens(v)[0];
    if depth <= MAX_DEPTH {
      match v
      case String(_) => assert tokens[1..] == tail;
      case Plain => assert tokens[1..] == tail;
      case Array(items) =>
        assert tokens[1..] == ItemTokens(items) + [CloseArray] + tail;
        CheckIsItems(items, tail, {}, depth);
      case Object(fields) =>
        assert tokens[1..] == FieldTokens(fields) + [CloseObject] + tail;
        CheckIsFields(fields, tail, {}, depth);
    }
  }

  lemma {:induction false} CheckIsItems(items: seq<Json>, tail: seq<Token>, seen: set<string>, depth: nat)
    ensures CheckMembers(ItemTokens(items) + [CloseArray] + tail, false, seen, depth) == if ItemsFit(items,
            depth + 1) then Some(tail) else None
    decreases items, 0
  {
    var tokens := ItemTokens(items) + [CloseArray] + tail;
    if items == [] {
      assert tokens[0] == CloseArray && tokens[1..] == tail;
    } else {
      var rest := ItemTokens(items[1..]) + [CloseArray] + tail;
      assert tokens == Tokens(items[0]) + rest;
      assert tokens[0] == Tokens(items[0])[0];
      CheckIsTree(items[0], rest, depth + 1);
      CheckIsItems(items[1..], tail, seen, depth);
      assert ItemsFit(items, depth + 1) <==> Fits(items[0], depth + 1) && ItemsFit(items[1..], depth + 1) by {
        assert items == [items[0]] + items[1..];
      }
    }
  }

  lemma FieldsHead(fields: seq<Field>, seen: set<string>, depth: nat)
    requires fields != []
    ensures FieldsFit(fields, seen, depth) <==>
            Fits(fields[0].value, depth) && fields[0].name !in seen &&
                FieldsFit(fields[1..], seen + {fields[0].name}, depth)
  {
    assert fields == [fields[0]] + fields[1..];
    if FieldsFit(fields[1..], seen + {fields[0].name}, depth) {
      forall j | 0 < j < |fields| ensures fields[j].name != fields[0].name && fields[j].name !in seen &&
          Fits(fields[j].value, depth) {
        assert fields[1..][j - 1] == fields[j];
      }
    }
  }

  lemma {:induction false} CheckIsFields(fields: seq<Field>, tail: seq<Token>, seen: set<string>, depth: nat)
    ensures CheckMembers(FieldTokens(fields) + [CloseObject] + tail, true, seen, depth) == if FieldsFit(fields, seen,
            depth + 1) then Some(tail) else None
    decreases fields, 0
  {
    var tokens := FieldTokens(fields) + [CloseObject] + tail;
    if fields == [] {
      assert tokens[0] == CloseObject && tokens[1..] == tail;
    } else {
      var rest := FieldTokens(fields[1..]) + [CloseObject] + tail;
      assert tokens[0] == Text(fields[0].name);
      assert tokens[1..] == Tokens(fields[0].value) + rest;
      FieldsHead(fields, seen, depth + 1);
      assert fields[0].value < fields[0];
      CheckIsTree(fields[0].value, rest, depth + 1);
      CheckIsFields(fields[1..], tail, seen + {fields[0].name}, depth);
    }
  }

  // ---- The decoder

  class Decoder {
    var rest: seq<Token>

    constructor (tokens: seq<Token>)
      ensures rest == tokens
    {
      rest := tokens;
    }

    method Next() returns (ok: bool, token: Token)
      modifies this
      ensures ok <==> old(rest) != []
      ensures ok ==> token == old(rest)[0] && rest == old(rest)[1..]
      ensures !ok ==> rest == old(rest)
    {
      if rest == [] {
        return false, Scalar;
      }
      ok, token := true, rest[0];
      rest := rest[1..];
    }

    function More(): bool
      reads this
    {
      rest != [] && !Closes(rest[0])
    }

    /** Checks one value, which it consumes when it accepts it. */
    method ProfileValue(depth: nat) returns (ok: bool)
      modifies this
      ensures ok <==> Check(old(rest), depth).Some?
      ensures ok ==> rest == Check(old(rest), depth).value
      decreases |rest|, 1
    {
      if depth > MAX_DEPTH {
        return false;
      }
      var read, token := Next();
      if !read || Closes(token) {
        return false;
      }
      if !token.OpenObject? && !token.OpenArray? {
        return true;
      }
      ghost var start := rest;
      var inObject := token.OpenObject?;
      var seen: set<string> := {};
      while More()
        invariant |rest| <= |start| < |old(rest)|
        invariant CheckMembers(start, inObject, {}, depth) == CheckMembers(rest, inObject, seen, depth)
        decreases |rest|
      {
        if inObject {
          var named, key := Next();
          if !named || !key.Text? || key.text in seen {
            return false;
          }
          seen := seen + {key.text};
        }
        ok := ProfileValue(depth + 1);
        if !ok {
          return false;
        }
      }
      read, token := Next();
      ok := read && token.CloseObject? == inObject;
    }
  }
}
