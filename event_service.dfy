/** The client's event endpoints: the query string `getAllEvents` builds
    with `URLSearchParams`, and the paths of the by-id calls. */
module EventService {
  import opened Wrappers

  type Byte = b: int | 0 <= b < 256

  // ----- UTF-8 -----

  /** The UTF-8 encoding of one code point. */
  function Utf8(c: char): (r: seq<Byte>)
    ensures 1 <= |r| <= 4
    ensures c as int < 0x80 <==> |r| == 1
    ensures c as int < 0x80 ==> r == [c as int]
  {
    var cp := c as int;
    if cp < 0x80 then [cp]
    else if cp < 0x800 then [0xC0 + cp / 64, 0x80 + cp % 64]
    else if cp < 0x10000 then [0xE0 + cp / 4096, 0x80 + (cp / 64) % 64, 0x80 + cp % 64]
    else [0xF0 + cp / 262144, 0x80 + (cp / 4096) % 64, 0x80 + (cp / 64) % 64, 0x80 + cp % 64]
  }

  function Utf8String(s: string): seq<Byte>
  {
    if s == [] then [] else Utf8(s[0]) + Utf8String(s[1..])
  }

  // ----- the application/x-www-form-urlencoded serializer -----

  /** The bytes the serializer leaves as they are: `*`, `-`, `.`, `_`, the
      ASCII digits and letters. */
  predicate Unreserved(b: Byte)
  {
    b == 0x2A || b == 0x2D || b == 0x2E || 0x30 <= b <= 0x39
    || 0x41 <= b <= 0x5A || b == 0x5F || 0x61 <= b <= 0x7A
  }

  /** An upper-case hexadecimal digit. */
  function HexDigit(n: int): (c: char)
    requires 0 <= n < 16
    ensures c != '&' && c != '='
  {
    if n < 10 then (0x30 + n) as char else (0x41 + n - 10) as char
  }

  function HexValue(c: char): Option<int>
  {
    var v := c as int;
    if 0x30 <= v <= 0x39 then Some(v - 0x30)
    else if 0x41 <= v <= 0x46 then Some(v - 0x41 + 10)
    else if 0x61 <= v <= 0x66 then Some(v - 0x61 + 10)
    else None
  }

  /** One byte as the serializer writes it: itself, `+` for a space, or
      `%XX` in upper-case hexadecimal. */
  function EncodeByte(b: Byte): (r: string)
    ensures 1 <= |r| <= 3
    ensures forall i :: 0 <= i < |r| ==> r[i] != '&' && r[i] != '='
  {
    if Unreserved(b) then [b as char]
    else if b == 0x20 then "+"
    else ['%', HexDigit(b / 16), HexDigit(b % 16)]
  }

  function EncodeBytes(bs: seq<Byte>): string
  {
    if bs == [] then [] else EncodeByte(bs[0]) + EncodeBytes(bs[1..])
  }

  /** A string as `URLSearchParams` serializes a name or a value: its
      UTF-8 bytes, each written by `EncodeByte`. The form-urlencoded parser
      reads back exactly those bytes. */
  function FormEncode(s: string): (r: string)
    ensures FormDecode(r) == Utf8String(s)
  {
    DecodeEncodeBytes(Utf8String(s), "");
    assert EncodeBytes(Utf8String(s)) + "" == EncodeBytes(Utf8String(s));
    EncodeBytes(Utf8String(s))
  }

  /** No `&` or `=` in a string. */
  predicate NoSeparator(r: string)
  {
    forall i :: 0 <= i < |r| ==> r[i] != '&' && r[i] != '='
  }

  lemma NoSeparatorAppend(a: string, b: string)
    requires NoSeparator(a) && NoSeparator(b)
    ensures NoSeparator(a + b)
  {
    forall i | 0 <= i < |a + b|
      ensures (a + b)[i] != '&' && (a + b)[i] != '='
    {
      if i >= |a| {
        assert (a + b)[i] == b[i - |a|];
      }
    }
  }

  lemma {:induction false} EncodeBytesNoSeparator(bs: seq<Byte>)
    ensures NoSeparator(EncodeBytes(bs))
  {
    if bs != [] {
      EncodeBytesNoSeparator(bs[1..]);
      NoSeparatorAppend(EncodeByte(bs[0]), EncodeBytes(bs[1..]));
    }
  }

  /** A serialized name or value never holds the `&` and `=` that separate
      and split the pairs. */
  lemma FormEncodeNoSeparator(s: string)
    ensures NoSeparator(FormEncode(s))
  {
    EncodeBytesNoSeparator(Utf8String(s));
  }

  /** The form-urlencoded parser's reading of one name or value: `+` is a
      space, `%` with two hexadecimal digits is that byte, anything else
      is its own UTF-8 bytes. */
  function FormDecode(s: string): seq<Byte>
  {
    if s == [] then []
    else if s[0] == '+' then [0x20] + FormDecode(s[1..])
    else if s[0] == '%' && |s| >= 3 && HexValue(s[1]).Some? && HexValue(s[2]).Some? then
      [16 * HexValue(s[1]).value + HexValue(s[2]).value] + FormDecode(s[3..])
    else Utf8(s[0]) + FormDecode(s[1..])
  }

  lemma DecodeEncodeByte(b: Byte, rest: string)
    ensures FormDecode(EncodeByte(b) + rest) == [b] + FormDecode(rest)
  {
    var s := EncodeByte(b) + rest;
    if Unreserved(b) {
      assert s[0] == b as char && s[1..] == rest;
    } else if b == 0x20 {
      assert s[0] == '+' && s[1..] == rest;
    } else {
      assert s[0] == '%' && s[1] == HexDigit(b / 16) && s[2] == HexDigit(b % 16) && s[3..] == rest;
    }
  }

  lemma {:induction false} DecodeEncodeBytes(bs: seq<Byte>, rest: string)
    ensures FormDecode(EncodeBytes(bs) + rest) == bs + FormDecode(rest)
  {
    if bs == [] {
      assert EncodeBytes(bs) + rest == rest;
    } else {
      DecodeEncodeBytes(bs[1..], rest);
      assert EncodeBytes(bs) + rest == EncodeByte(bs[0]) + (EncodeBytes(bs[1..]) + rest);
      DecodeEncodeByte(bs[0], EncodeBytes(bs[1..]) + rest);
      assert [bs[0]] + (bs[1..] + FormDecode(rest)) == ([bs[0]] + bs[1..]) + FormDecode(rest);
      assert bs == [bs[0]] + bs[1..];
    }
  }

  /** A string of unreserved ASCII characters. */
  predicate UnreservedText(s: string)
  {
    s == [] || (s[0] as int < 0x80 && Unreserved(s[0] as int) && UnreservedText(s[1..]))
  }

  /** A string of unreserved ASCII characters is serialized as itself. */
  lemma {:induction false} FormEncodeUnreserved(s: string)
    requires UnreservedText(s)
    ensures FormEncode(s) == s
  {
    if s != [] {
      FormEncodeUnreserved(s[1..]);
      var bs := Utf8String(s);
      assert bs == [s[0] as int] + Utf8String(s[1..]);
      assert bs[0] == s[0] as int && bs[1..] == Utf8String(s[1..]);
      assert EncodeByte(bs[0]) == [s[0]];
      assert s == [s[0]] + s[1..];
    }
  }

  /** A name and value as one `name=value` pair. */
  function Pair(p: (string, string)): string
  {
    FormEncode(p.0) + "=" + FormEncode(p.1)
  }

  /** `URLSearchParams.toString()`: the pairs in insertion order, joined
      by `&`. */
  function Serialize(params: seq<(string, string)>): (r: string)
    ensures r == "" <==> params == []
  {
    if params == [] then ""
    else if |params| == 1 then Pair(params[0])
    else Pair(params[0]) + "&" + Serialize(params[1..])
  }

  // ----- getAllEvents -----

  /** A filter takes part only when it is a non-empty string. */
  predicate Given(v: Option<string>)
  {
    v.Some? && v.value != ""
  }

  lemma ValueNoSeparator(v: Option<string>)
    ensures v.Some? ==> NoSeparator(FormEncode(v.value))
  {
    if v.Some? {
      FormEncodeNoSeparator(v.value);
    }
  }

  /** The endpoint `getAllEvents` calls, case by case: no query without a
      filter, and the category before the search when both are given. */
  function Endpoint(category: Option<string>, search: Option<string>): (r: string)
    ensures |r| >= 7 && r[..7] == "/events"
    ensures r == "/events" <==> !Given(category) && !Given(search)
    ensures '&' in r <==> Given(category) && Given(search)
  {
    ValueNoSeparator(category);
    ValueNoSeparator(search);
    if Given(category) && Given(search) then
      var query := "/events?category=" + FormEncode(category.value);
      assert ("/events?category=" + FormEncode(category.value) + "&search=" + FormEncode(search.value))[|query|] == '&';
      "/events?category=" + FormEncode(category.value) + "&search=" + FormEncode(search.value)
    else if Given(category) then
      "/events?category=" + FormEncode(category.value)
    else if Given(search) then
      "/events?search=" + FormEncode(search.value)
    else "/events"
  }

  const CategoryKey: string := "category"
  const SearchKey: string := "search"

  lemma KeysAreUnreserved()
    ensures FormEncode(CategoryKey) == CategoryKey && FormEncode(SearchKey) == SearchKey
  {
    assert UnreservedText("category") && UnreservedText("search");
    FormEncodeUnreserved(CategoryKey);
    FormEncodeUnreserved(SearchKey);
  }

  lemma SerializeTwo(p: (string, string), q: (string, string))
    ensures Serialize([p, q]) == Pair(p) + "&" + Pair(q)
  {
    assert [p, q][1..] == [q];
  }

  /** One parameter whose name is unreserved text. */
  lemma KeyQuery(key: string, v: string)
    requires FormEncode(key) == key
    ensures Serialize([(key, v)]) == key + "=" + FormEncode(v)
  {
  }

  /** Two parameters whose names are unreserved text. */
  lemma KeysQuery(k1: string, v1: string, k2: string, v2: string)
    requires FormEncode(k1) == k1 && FormEncode(k2) == k2
    ensures Serialize([(k1, v1), (k2, v2)]) == k1 + "=" + FormEncode(v1) + "&" + k2 + "=" + FormEncode(v2)
  {
    SerializeTwo((k1, v1), (k2, v2));
  }

  /** The three shapes of `"/events" + "?" + query`, spelled out. */
  lemma CategoryJoin(query: string, fc: string)
    requires query == CategoryKey + "=" + fc
    ensures "/events" + "?" + query == "/events?category=" + fc
  {
  }

  lemma SearchJoin(query: string, ft: string)
    requires query == SearchKey + "=" + ft
    ensures "/events" + "?" + query == "/events?search=" + ft
  {
  }

  lemma BothJoin(query: string, fc: string, ft: string)
    requires query == CategoryKey + "=" + fc + "&" + SearchKey + "=" + ft
    ensures "/events" + "?" + query == "/events?category=" + fc + "&search=" + ft
  {
  }

  /** `getAllEvents(filters)`: the parameters are collected in a buffer and
      the query appended only when the buffer serializes to something. */
  method GetAllEventsEndpoint(category: Option<string>, search: Option<string>) returns (endpoint: string)
    ensures endpoint == Endpoint(category, search)
  {
    endpoint := "/events";
    var params: seq<(string, string)> := [];
    if Given(category) {
      params := params + [(CategoryKey, category.value)];
    }
    if Given(search) {
      params := params + [(SearchKey, search.value)];
    }
    var query := Serialize(params);
    if query != "" {
      endpoint := endpoint + "?" + query;
    }
    KeysAreUnreserved();
    if Given(category) && Given(search) {
      KeysQuery(CategoryKey, category.value, SearchKey, search.value);
      BothJoin(query, FormEncode(category.value), FormEncode(search.value));
    } else if Given(category) {
      KeyQuery(CategoryKey, category.value);
      CategoryJoin(query, FormEncode(category.value));
    } else if Given(search) {
      KeyQuery(SearchKey, search.value);
      SearchJoin(query, FormEncode(search.value));
    }
  }

  /** Filters made of unreserved characters appear in the endpoint as
      they are. */
  lemma EndpointOfUnreserved(c: string, t: string)
    requires UnreservedText(c) && UnreservedText(t)
    ensures c != "" ==> Endpoint(Some(c), None) == "/events?category=" + c
    ensures t != "" ==> Endpoint(None, Some(t)) == "/events?search=" + t
    ensures c != "" && t != "" ==> Endpoint(Some(c), Some(t)) == "/events?category=" + c + "&search=" + t
  {
    FormEncodeUnreserved(c);
    FormEncodeUnreserved(t);
  }

  /** The query names the category first and the search second, and the
      `&` between them is the only one in the query. */
  lemma EndpointSeparatesFilters(c: string, s: string)
    requires c != "" && s != ""
    ensures var e := Endpoint(Some(c), Some(s));
      var k := |"/events?category="| + |FormEncode(c)|;
      && e[..k] == "/events?category=" + FormEncode(c)
      && e[k] == '&'
      && forall i :: |"/events?category="| <= i < |e| && i != k ==> e[i] != '&'
  {
    FormEncodeNoSeparator(c);
    FormEncodeNoSeparator(s);
    var e := Endpoint(Some(c), Some(s));
    var fc := FormEncode(c);
    var fs := FormEncode(s);
    var k := |"/events?category="| + |fc|;
    assert e == "/events?category=" + fc + "&search=" + fs;
    forall i | |"/events?category="| <= i < |e| && i != k
      ensures e[i] != '&'
    {
      if i < k {
        assert e[i] == fc[i - |"/events?category="|];
      } else if i > k + |"search="| {
        assert e[i] == fs[i - k - 1 - |"search="|];
      }
    }
  }

  // ----- the by-id paths -----

  /** `/events/${eventId}`, used to get, update and delete one event. */
  function EventPath(eventId: string): (r: string)
    ensures |r| == |"/events/"| + |eventId|
    ensures r[..|"/events/"|] == "/events/" && r[|"/events/"|..] == eventId
  {
    "/events/" + eventId
  }

  /** `/events/category/${categoryId}`. */
  function CategoryEventsPath(categoryId: string): (r: string)
    ensures |r| == |"/events/category/"| + |categoryId|
    ensures r[..|"/events/category/"|] == "/events/category/" && r[|"/events/category/"|..] == categoryId
  {
    "/events/category/" + categoryId
  }

  /** Distinct ids give distinct paths. */
  lemma EventPathInjective(a: string, b: string)
    requires EventPath(a) == EventPath(b)
    ensures a == b
  {
    assert a == EventPath(a)[|"/events/"|..];
  }

  /** The ids are not escaped: an event id that starts with `category/`
      addresses the category listing. */
  lemma EventPathMeetsCategoryPath(categoryId: string)
    ensures EventPath("category/" + categoryId) == CategoryEventsPath(categoryId)
  {
  }
}
