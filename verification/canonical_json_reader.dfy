/**
 The parser as the repository runs it: closures around one mutable cursor, with loops that
 collect elements and members. Each method is tied to the functions of CanonicalJsonParser
 on the unread text.
 */
module CanonicalJsonReader {
  import opened CanonicalJson
  import opened CanonicalJsonParser

  /** A returned value, a thrown SyntaxError, or a number outside the model. */
  datatype Read<+T> = Value(value: T) | Failed | NotModelled

  ghost predicate Agrees<T>(expected: Outcome<T>, r: Read<T>, unread: Text) {
    match expected
    case Got(v, rest) => r == Value(v) && unread == rest
    case Reject => r == Failed
    case Outside => r == NotModelled
  }

  class Reader {
    const text: Text
    var cursor: nat

    ghost predicate Valid()
      reads this
    {
      cursor <= |text|
    }

    ghost function Unread(): Text
      requires Valid()
      reads this
    {
      text[cursor..]
    }

    constructor (text: Text)
      ensures Valid() && this.text == text && cursor == 0
    {
      this.text, cursor := text, 0;
    }

    predicate At(u: CodeUnit)
      requires Valid()
      reads this
      ensures At(u) == StartsWith(Unread(), u)
    {
      cursor < |text| && text[cursor] == u
    }

    method Ws()
      requires Valid()
      modifies this
      ensures Valid() && cursor >= old(cursor)
      ensures Unread() == SkipSpace(old(Unread()))
    {
      while cursor < |text| && IsSpace(text[cursor])
        invariant Valid() && cursor >= old(cursor)
        invariant SkipSpace(old(Unread())) == SkipSpace(Unread())
        decreases |text| - cursor
      {
        assert Unread()[1..] == text[cursor + 1..];
        cursor := cursor + 1;
      }
    }

    method ReadString() returns (r: Read<Text>)
      requires Valid()
      modifies this
      ensures Valid() && cursor >= old(cursor)
      ensures r.Value? ==> cursor > old(cursor)
      ensures Agrees(ParseString(old(Unread())), r, Unread())
    {
      if cursor == |text| || text[cursor] != QUOTE {
        return Failed;
      }
      var start := cursor;
      ghost var t := Unread();
      cursor := cursor + 1;
      while cursor < |text|
        invariant start < cursor <= |text|
        invariant ScanClose(t, 1) == ScanClose(t, cursor - start)
        decreases |text| - cursor
      {
        var unit := text[cursor];
        assert t[cursor - start] == unit;
        cursor := cursor + 1;
        if unit == QUOTE {
          assert t[1..cursor - start - 1] == text[start + 1..cursor - 1];
          assert t[cursor - start..] == text[cursor..];
          var value := Unescape(text[start + 1..cursor - 1]);
          var ok := AssertString(value);
          return if ok then Value(value) else Failed;
        }
        if unit == BACKSLASH {
          if cursor >= |text| {
            return Failed;
          }
          var escaped := text[cursor];
          assert t[cursor - start] == escaped;
          cursor := cursor + 1;
          if escaped == LOWER_U {
            var four := cursor + 4 <= |text| && forall k | cursor <= k < cursor + 4 :: IsHex(text[k]);
            ghost var i := cursor - start;
            assert four <==> i + 4 <= |t| && forall k | i <= k < i + 4 :: IsHex(t[k]) by {
              assert forall k | i <= k < |t| :: t[k] == text[start + k];
              assert forall k | cursor <= k < |text| :: text[k] == t[k - start];
            }
            if !four {
              return Failed;
            }
            cursor := cursor + 4;
          } else if !SimpleEscape(escaped) {
            return Failed;
          }
        } else if unit < 0x20 {
          return Failed;
        }
      }
      return Failed;
    }

    method ReadValue() returns (r: Read<Json>)
      requires Valid()
      modifies this
      ensures Valid() && cursor >= old(cursor)
      ensures Agrees(ParseValue(old(Unread()), true), r, Unread())
      decreases |text| - cursor, 1
    {
      hide ParseElements, ParseMembers, ParseString, ParseNumber;
      Ws();
      var quote, bracket, brace := At(QUOTE), At(OPEN_BRACKET), At(OPEN_BRACE);
      if quote {
        var s := ReadString();
        return if s.Value? then Value(Str(s.value)) else Failed;
      }
      if bracket {
        ghost var t := Unread();
        cursor := cursor + 1;
        assert Unread() == t[1..];
        Ws();
        var empty := At(CLOSE_BRACKET);
        if empty {
          ghost var t1 := Unread();
          cursor := cursor + 1;
          assert Unread() == t1[1..];
          return Value(Arr([]));
        }
        r := ReadElements();
        return;
      }
      if brace {
        ghost var t := Unread();
        cursor := cursor + 1;
        assert Unread() == t[1..];
        Ws();
        var empty := At(CLOSE_BRACE);
        if empty {
          ghost var t1 := Unread();
          cursor := cursor + 1;
          assert Unread() == t1[1..];
          return Value(Obj(map[]));
        }
        r := ReadMembers();
        return;
      }
      r := ReadAtom();
    }

    /** The three literals in turn, then the number expression. */
    method ReadAtom() returns (r: Read<Json>)
      requires Valid()
      modifies this
      ensures Valid() && cursor >= old(cursor)
      ensures var t := old(Unread());
              Agrees(if HasPrefix(t, TRUE_TEXT) then Got(Bool(true), t[4..])
                     else if HasPrefix(t, FALSE_TEXT) then Got(Bool(false), t[5..])
                     else if HasPrefix(t, NULL_TEXT) then Got(Null, t[4..])
                     else ParseNumber(t, true), r, Unread())
    {
      ghost var t := Unread();
      var literals := [(TRUE_TEXT, Bool(true)), (FALSE_TEXT, Bool(false)), (NULL_TEXT, Null)];
      var i := 0;
      while i < 3
        invariant i <= 3 && cursor == old(cursor)
        invariant forall j | 0 <= j < i :: !HasPrefix(t, literals[j].0)
      {
        if HasPrefix(text[cursor..], literals[i].0) {
          cursor := cursor + |literals[i].0|;
          assert Unread() == t[|literals[i].0|..];
          return Value(literals[i].1);
        }
        i := i + 1;
      }
      assert !HasPrefix(t, literals[0].0) && !HasPrefix(t, literals[1].0) && !HasPrefix(t, literals[2].0);
      match ParseNumber(text[cursor..], true) {
        case Got(n, rest) =>
          assert |rest| <= |t| && rest == t[|t| - |rest|..] by { NumberRestIsSuffix(t); }
          cursor := |text| - |rest|;
          r := Value(n);
        case Reject => r := Failed;
        case Outside => r := NotModelled;
      }
    }

    method ReadElements() returns (r: Read<Json>)
      requires Valid()
      modifies this
      ensures Valid() && cursor >= old(cursor)
      ensures Agrees(ParseElements(old(Unread()), [], true), r, Unread())
      decreases |text| - cursor, 2
    {
      hide ParseValue;
      var result: seq<Json> := [];
      while true
        invariant Valid() && cursor >= old(cursor)
        invariant ParseElements(old(Unread()), [], true) == ParseElements(Unread(), result, true)
        decreases |text| - cursor
      {
        ghost var t := Unread();
        var item := ReadValue();
        if !item.Value? {
          return item;
        }
        result := result + [item.value];
        Ws();
        ghost var after := Unread();
        var closed, comma := At(CLOSE_BRACKET), At(COMMA);
        if closed {
          cursor := cursor + 1;
          assert Unread() == after[1..];
          return Value(Arr(result));
        }
        if !comma {
          return Failed;
        }
        cursor := cursor + 1;
        assert Unread() == after[1..];
      }
    }

    method ReadMember(keys: set<Text>) returns (r: Read<(Text, Json)>)
      requires Valid()
      modifies this
      ensures Valid() && cursor >= old(cursor)
      ensures Agrees(ParseMember(old(Unread()), keys, true), r, Unread())
      decreases |text| - cursor, 2
    {
      hide ParseValue, ParseString, SkipSpace, DangerousKey;
      Ws();
      var key := ReadString();
      if !key.Value? {
        return Failed;
      }
      if key.value in keys || DangerousKey(key.value) {
        return Failed;
      }
      Ws();
      if !At(COLON) {
        return Failed;
      }
      ghost var colon := Unread();
      cursor := cursor + 1;
      assert Unread() == colon[1..];
      var item := ReadValue();
      match item {
        case Value(v) => r := Value((key.value, v));
        case Failed => r := Failed;
        case NotModelled => r := NotModelled;
      }
    }

    method ReadMembers() returns (r: Read<Json>)
      requires Valid()
      modifies this
      ensures Valid() && cursor >= old(cursor)
      ensures Agrees(ParseMembers(old(Unread()), map[], true), r, Unread())
      decreases |text| - cursor, 3
    {
      hide ParseMember, SkipSpace;
      var result: map<Text, Json> := map[];
      var keys: set<Text> := {};
      while true
        invariant Valid() && cursor >= old(cursor)
        invariant keys == result.Keys
        invariant ParseMembers(old(Unread()), map[], true) == ParseMembers(Unread(), result, true)
        decreases |text| - cursor
      {
        var item := ReadMember(keys);
        match item {
          case Failed => return Failed;
          case NotModelled => return NotModelled;
          case Value(member) =>
            keys := keys + {member.0};
            result := result[member.0 := member.1];
        }
        Ws();
        ghost var after := Unread();
        if At(CLOSE_BRACE) {
          cursor := cursor + 1;
          assert Unread() == after[1..];
          return Value(Obj(result));
        }
        if !At(COMMA) {
          return Failed;
        }
        cursor := cursor + 1;
        assert Unread() == after[1..];
      }
    }
  }

  lemma NumberRestIsSuffix(t: Text)
    ensures var r := ParseNumber(t, true); r.Got? ==> |r.rest| <= |t| && r.rest == t[|t| - |r.rest|..]
  {
    if StartsWith(t, MINUS) {
      var digits := t[1..];
      assert forall k | 0 <= k <= |digits| :: digits[k..] == t[k + 1..];
    }
  }

  method ParseCanonicalJson(text: Text) returns (r: Parsed)
    ensures r == Parse(text)
  {
    var reader := new Reader(text);
    assert reader.Unread() == text;
    var result := reader.ReadValue();
    if result.NotModelled? {
      return OutsideModel;
    }
    if result.Failed? {
      return Refused;
    }
    reader.Ws();
    assert reader.Unread() == [] <==> reader.cursor == |text|;
    return if reader.cursor == |text| then Accepted(result.value) else Refused;
  }
}
