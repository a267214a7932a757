/**
 * Browser-local persistent storage and the two keys the client keeps there: the
 * bearer credential under 'token' and the serialised user record under 'user'.
 */
module Session {
  import opened Wrappers
  import opened Text
  import opened Types

  const TokenKey := "token"
  const UserKey := "user"

  /** `localStorage`: a map from keys to string values, shared by every page. */
  class LocalStorage {
    var items: map<string, string>

    constructor (items: map<string, string>)
      ensures this.items == items
    {
      this.items := items;
    }

    /** `getItem(key)`: `None` stands for `null`. */
    function GetItem(key: string): (r: Option<string>)
      reads this
      ensures r.Some? <==> key in items
      ensures r.Some? ==> r.value == items[key]
    {
      if key in items then Some(items[key]) else None
    }

    function Token(): Option<string>
      reads this
    {
      GetItem(TokenKey)
    }

    function StoredUser(): Option<string>
      reads this
    {
      GetItem(UserKey)
    }

    /** `setItem(key, value)`: this key gets the value, every other key keeps its own. */
    method SetItem(key: string, value: string)
      modifies this
      ensures items == old(items)[key := value]
      ensures GetItem(key) == Some(value)
      ensures forall k :: k != key ==> GetItem(k) == old(GetItem(k))
    {
      items := items[key := value];
    }

    /** `removeItem(key)`: this key is gone, every other key keeps its value. */
    method RemoveItem(key: string)
      modifies this
      ensures items == old(items) - {key}
      ensures GetItem(key) == None
      ensures forall k :: k != key ==> GetItem(k) == old(GetItem(k))
    {
      items := items - {key};
    }
  }

  /** The body of `JSON.stringify` of a string: '"', '\' and control characters escaped. */
  function JsonEscape(s: string): (r: string)
    ensures |r| >= |s|
    ensures (forall k :: 0 <= k < |s| ==> ' ' <= s[k] && s[k] != '"' && s[k] != '\\') ==> r == s
  {
    if s == [] then "" else EscapeChar(s[0]) + JsonEscape(s[1..])
  }

  /** The JSON text of one character inside a string literal. */
  function EscapeChar(c: char): (r: string)
    ensures 1 <= |r|
    ensures ' ' <= c && c != '"' && c != '\\' ==> r == [c]
  {
    if c == '"' then "\\\""
    else if c == '\\' then "\\\\"
    else if c == '\U{8}' then "\\b"
    else if c == '\t' then "\\t"
    else if c == '\n' then "\\n"
    else if c == '\U{C}' then "\\f"
    else if c == '\r' then "\\r"
    else if c < ' ' then "\\u00" + [HexDigit(c as int / 16), HexDigit(c as int % 16)]
    else [c]
  }

  function HexDigit(d: nat): (c: char)
    requires d < 16
    ensures IsHex(c) && HexValue(c) == d
  {
    if d < 10 then DigitChar(d) else ('a' as int + d - 10) as char
  }

  predicate IsHex(c: char) {
    IsDigit(c) || 'a' <= c <= 'f'
  }

  function HexValue(c: char): nat
    requires IsHex(c)
  {
    if IsDigit(c) then c as int - '0' as int else c as int - 'a' as int + 10
  }

  /** The character a one-letter escape `\x` stands for. */
  function Unescaped(x: char): char {
    if x == 'b' then '\U{8}'
    else if x == 't' then '\t'
    else if x == 'n' then '\n'
    else if x == 'f' then '\U{C}'
    else if x == 'r' then '\r'
    else x
  }

  /** Reads the escapes of a JSON string literal's body back into characters. */
  function JsonUnescape(s: string): string
    decreases |s|
  {
    if s == [] then ""
    else if |s| >= 6 && s[..4] == "\\u00" && IsHex(s[4]) && IsHex(s[5]) then
      [(HexValue(s[4]) * 16 + HexValue(s[5])) as char] + JsonUnescape(s[6..])
    else if |s| >= 2 && s[0] == '\\' && s[1] != 'u' then [Unescaped(s[1])] + JsonUnescape(s[2..])
    else [s[0]] + JsonUnescape(s[1..])
  }

  /** Reading one escaped character back gives the character. */
  lemma UnescapeStep(c: char, rest: string)
    ensures JsonUnescape(EscapeChar(c) + rest) == [c] + JsonUnescape(rest)
  {
    if c == '"' { UnescapePair('"', rest); }
    else if c == '\\' { UnescapePair('\\', rest); }
    else if c == '\U{8}' { UnescapePair('b', rest); }
    else if c == '\t' { UnescapePair('t', rest); }
    else if c == '\n' { UnescapePair('n', rest); }
    else if c == '\U{C}' { UnescapePair('f', rest); }
    else if c == '\r' { UnescapePair('r', rest); }
    else if c < ' ' { UnescapeHex(c as int / 16, c as int % 16, rest); }
    else { UnescapePlain(c, rest); }
  }

  lemma UnescapePair(x: char, rest: string)
    requires x != 'u'
    ensures JsonUnescape(['\\', x] + rest) == [Unescaped(x)] + JsonUnescape(rest)
  {
    var t := ['\\', x] + rest;
    assert |t| >= 4 ==> t[..4] != "\\u00" by {
      assert |t| >= 4 ==> t[..4][1] == x;
    }
    assert t[2..] == rest;
  }

  lemma UnescapeHex(hi: nat, lo: nat, rest: string)
    requires hi < 16 && lo < 16
    ensures JsonUnescape("\\u00" + [HexDigit(hi), HexDigit(lo)] + rest)
            == [(hi * 16 + lo) as char] + JsonUnescape(rest)
  {
    var t := "\\u00" + [HexDigit(hi), HexDigit(lo)] + rest;
    assert t[..4] == "\\u00" && t[4] == HexDigit(hi) && t[5] == HexDigit(lo) && t[6..] == rest;
  }

  lemma UnescapePlain(c: char, rest: string)
    requires c != '\\'
    ensures JsonUnescape([c] + rest) == [c] + JsonUnescape(rest)
  {
    var t := [c] + rest;
    assert |t| >= 4 ==> t[..4] != "\\u00" by {
      assert |t| >= 4 ==> t[..4][0] == c;
    }
    assert t[1..] == rest;
  }

  /** `JSON.stringify` of a string loses nothing: its body reads back as the string. */
  lemma {:induction false} EscapeRoundTrip(s: string)
    ensures JsonUnescape(JsonEscape(s)) == s
    decreases |s|
  {
    if s != [] {
      UnescapeStep(s[0], JsonEscape(s[1..]));
      EscapeRoundTrip(s[1..]);
    }
  }

  /** `JSON.stringify(user)` for the two fields of a user record. */
  function SerializeUser(u: User): string {
    UserPrefix(u.id) + JsonEscape(u.email) + "\"}"
  }

  /** The serialised user up to the opening quote of its email. */
  function UserPrefix(id: int): string {
    "{\"id\":" + IntToString(id) + ",\"email\":\""
  }

  /** The serialised user is the id, then the email, quoted, and the email reads back exactly. */
  lemma SerializeUserReadsBack(u: User)
    ensures StartsWith(SerializeUser(u), UserPrefix(u.id))
    ensures var t := SerializeUser(u); var n := |UserPrefix(u.id)|;
            |t| >= n + 2 && t[|t| - 2..] == "\"}" && JsonUnescape(t[n..|t| - 2]) == u.email
  {
    var t := SerializeUser(u);
    var n := |UserPrefix(u.id)|;
    assert t[..n] == UserPrefix(u.id);
    assert t[n..|t| - 2] == JsonEscape(u.email);
    EscapeRoundTrip(u.email);
  }
}
