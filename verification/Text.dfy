/** Strings as Rust's standard library treats them: UTF-8, white space, decimal numbers,
    splitting and joining. */
module Text {
  import opened Wrappers
  import opened Errors

  // ----- UTF-8

  predicate IsScalar(n: int) {
    0 <= n < 0xD800 || 0xE000 <= n < 0x11_0000
  }

  function EncodeScalar(n: nat): (bytes: seq<u8>)
    requires n < 0x11_0000
    ensures 1 <= |bytes| <= 4
  {
    if n < 0x80 then [n]
    else if n < 0x800 then [0xC0 + n / 64, 0x80 + n % 64]
    else if n < 0x1_0000 then [0xE0 + n / 4096, 0x80 + n / 64 % 64, 0x80 + n % 64]
    else [0xF0 + n / 262144, 0x80 + n / 4096 % 64, 0x80 + n / 64 % 64, 0x80 + n % 64]
  }

  function EncodeChar(c: char): seq<u8> {
    EncodeScalar(c as int)
  }

  function Utf8(s: string): seq<u8> {
    if s == "" then [] else EncodeChar(s[0]) + Utf8(s[1..])
  }

  function SequenceLength(lead: u8): (n: nat)
    ensures n >= 1
  {
    if lead < 0xC0 then 1 else if lead < 0xE0 then 2 else if lead < 0xF0 then 3 else 4
  }

  /** What a byte carries above its mark. */
  function Bits(b: u8, mark: int): int {
    b as int - mark
  }

  /** The payload bits of a sequence with its length already known. */
  function Payload(bytes: seq<u8>): int
    requires 1 <= |bytes| <= 4
  {
    var lead: int := bytes[0];
    if |bytes| == 1 then lead
    else
      var b1 := Bits(bytes[1], 0x80);
      if |bytes| == 2 then (lead - 0xC0) * 64 + b1
      else
        var b2 := Bits(bytes[2], 0x80);
        if |bytes| == 3 then (lead - 0xE0) * 4096 + b1 * 64 + b2
        else (lead - 0xF0) * 262144 + b1 * 4096 + b2 * 64 + Bits(bytes[3], 0x80)
  }

  /** Decodes one character and says how many bytes it took; overlong forms, surrogates
      and stray bytes are rejected because encoding the candidate again must give the
      same bytes. */
  function DecodeOne(bytes: seq<u8>): (r: Option<(char, nat)>)
    requires bytes != []
    ensures r.Some? ==> 1 <= r.value.1 <= |bytes| && EncodeChar(r.value.0) == bytes[..r.value.1]
  {
    var n := SequenceLength(bytes[0]);
    if |bytes| < n then None
    else
      var code := Payload(bytes[..n]);
      if IsScalar(code) && EncodeScalar(code) == bytes[..n] then Some((code as char, n)) else None
  }

  function DecodeUtf8(bytes: seq<u8>): (r: Option<string>)
    decreases |bytes|
  {
    if bytes == [] then Some("")
    else
      var one := DecodeOne(bytes);
      if one.None? then None
      else
        var rest := DecodeUtf8(bytes[one.value.1..]);
        if rest.None? then None else Some([one.value.0] + rest.value)
  }

  /** The form that section 3 of RFC 3629 gives: how many bytes, which lead bytes, and how
      the number is spread over them. */
  lemma EncodedAsUtf8(n: nat)
    requires n < 0x11_0000
    ensures var b := EncodeScalar(n);
            && |b| == (if n < 0x80 then 1 else if n < 0x800 then 2 else if n < 0x1_0000 then 3 else 4)
            && (forall i :: 1 <= i < |b| ==> 0x80 <= b[i] <= 0xBF)
            && (|b| == 1 ==> b[0] == n)
            && (|b| == 2 ==> 0xC2 <= b[0] <= 0xDF && n == Bits(b[0], 0xC0) * 64 + Bits(b[1], 0x80))
            && (|b| == 3 ==> 0xE0 <= b[0] <= 0xEF
                             && n == Bits(b[0], 0xE0) * 4096 + Bits(b[1], 0x80) * 64 + Bits(b[2], 0x80))
            && (|b| == 4 ==> 0xF0 <= b[0] <= 0xF4
                             && n == Bits(b[0], 0xF0) * 262144 + Bits(b[1], 0x80) * 4096 + Bits(b[2], 0x80) * 64 + Bits(b[3], 0x80))
  {
    PayloadOfScalar(n);
  }

  lemma PayloadOfScalar(n: nat)
    requires n < 0x11_0000
    ensures SequenceLength(EncodeScalar(n)[0]) == |EncodeScalar(n)|
    ensures Payload(EncodeScalar(n)) == n
  {
    assert n / 64 / 64 == n / 4096 && n / 4096 / 64 == n / 262144;
  }

  lemma DecodeEncodedChar(c: char, rest: seq<u8>)
    ensures DecodeOne(EncodeChar(c) + rest) == Some((c, |EncodeChar(c)|))
  {
    PayloadOfScalar(c as int);
    assert (EncodeChar(c) + rest)[..|EncodeChar(c)|] == EncodeChar(c);
  }

  /** Decoding inverts encoding on every string... */
  lemma {:induction false} Utf8RoundTrip(s: string)
    ensures DecodeUtf8(Utf8(s)) == Some(s)
  {
    if s != "" {
      var one, rest := EncodeChar(s[0]), Utf8(s[1..]);
      DecodeEncodedChar(s[0], rest);
      Utf8RoundTrip(s[1..]);
      assert (one + rest)[|one|..] == rest;
      assert Utf8(s) == one + rest && Utf8(s) != [];
      assert s == [s[0]] + s[1..];
    }
  }

  /** ... and accepts nothing but encodings. */
  lemma {:induction false} DecodedUtf8IsEncoding(bytes: seq<u8>)
    requires DecodeUtf8(bytes).Some?
    ensures Utf8(DecodeUtf8(bytes).value) == bytes
    decreases |bytes|
  {
    if bytes != [] {
      var one := DecodeOne(bytes).value;
      DecodedUtf8IsEncoding(bytes[one.1..]);
      EncodeDecoded(bytes, one.0, one.1, DecodeUtf8(bytes[one.1..]).value);
    }
  }

  lemma EncodeDecoded(bytes: seq<u8>, c: char, n: nat, rest: string)
    requires n <= |bytes| && EncodeChar(c) == bytes[..n] && Utf8(rest) == bytes[n..]
    ensures Utf8([c] + rest) == bytes
  {
  }

  /** No character takes less than one byte. */
  lemma {:induction false} Utf8NotShorter(s: string)
    ensures |s| <= |Utf8(s)|
  {
    if s != "" {
      Utf8NotShorter(s[1..]);
    }
  }

  // ----- White space

  /** Unicode `White_Space`. */
  predicate IsWhitespace(c: char) {
    var n := c as int;
    0x09 <= n <= 0x0D || n == 0x20 || n == 0x85 || n == 0xA0 || n == 0x1680 || 0x2000 <= n <= 0x200A
    || n == 0x2028 || n == 0x2029 || n == 0x202F || n == 0x205F || n == 0x3000
  }

  /** The 25 characters that have the property. */
  lemma WhitespaceSpelledOut(c: char)
    ensures IsWhitespace(c) <==>
            c as int in {9, 10, 11, 12, 13, 32, 133, 160, 5760, 8192, 8193, 8194, 8195, 8196, 8197, 8198, 8199, 8200, 8201, 8202,
                         8232, 8233, 8239, 8287, 12288}
  {
  }

  /** `s.trim().is_empty()`. */
  predicate IsBlank(s: string) {
    forall c :: c in s ==> IsWhitespace(c)
  }

  predicate NoWhitespace(s: string) {
    forall c :: c in s ==> !IsWhitespace(c)
  }

  function TrimStart(s: string): string {
    if s != "" && IsWhitespace(s[0]) then TrimStart(s[1..]) else s
  }

  function TrimEnd(s: string): string {
    if s != "" && IsWhitespace(s[|s| - 1]) then TrimEnd(s[..|s| - 1]) else s
  }

  function Trim(s: string): string {
    TrimEnd(TrimStart(s))
  }

  lemma {:induction false} TrimStartExactly(s: string) returns (lead: string)
    ensures IsBlank(lead) && s == lead + TrimStart(s)
    ensures TrimStart(s) != "" ==> !IsWhitespace(TrimStart(s)[0])
  {
    lead := "";
    if s != "" && IsWhitespace(s[0]) {
      lead := TrimStartExactly(s[1..]);
      lead := [s[0]] + lead;
    }
  }

  lemma {:induction false} TrimEndExactly(s: string) returns (tail: string)
    ensures IsBlank(tail) && s == TrimEnd(s) + tail
    ensures TrimEnd(s) != "" ==> TrimEnd(s)[0] == s[0] && !IsWhitespace(TrimEnd(s)[|TrimEnd(s)| - 1])
  {
    tail := "";
    if s != "" && IsWhitespace(s[|s| - 1]) {
      tail := TrimEndExactly(s[..|s| - 1]);
      tail := tail + [s[|s| - 1]];
    }
  }

  /** Trimming takes white space off both ends, all of it and nothing else. */
  lemma TrimExactly(s: string) returns (lead: string, tail: string)
    ensures IsBlank(lead) && IsBlank(tail) && s == lead + Trim(s) + tail
    ensures Trim(s) != "" ==> !IsWhitespace(Trim(s)[0]) && !IsWhitespace(Trim(s)[|Trim(s)| - 1])
  {
    lead := TrimStartExactly(s);
    tail := TrimEndExactly(TrimStart(s));
    assert lead + (Trim(s) + tail) == lead + Trim(s) + tail;
  }

  /** `s` is `item`, which has no white space at its ends, with white space around it. */
  ghost predicate Padded(s: string, item: string) {
    && item != "" && !IsWhitespace(item[0]) && !IsWhitespace(item[|item| - 1])
    && exists lead, tail :: IsBlank(lead) && IsBlank(tail) && s == lead + item + tail
  }

  lemma {:induction false} TrimStartSkips(lead: string, s: string)
    requires IsBlank(lead) && s != "" && !IsWhitespace(s[0])
    ensures TrimStart(lead + s) == s
  {
    if lead == "" {
      assert lead + s == s;
    } else {
      assert (lead + s)[1..] == lead[1..] + s && lead[0] in lead;
      TrimStartSkips(lead[1..], s);
    }
  }

  lemma {:induction false} TrimEndSkips(s: string, tail: string)
    requires IsBlank(tail) && s != "" && !IsWhitespace(s[|s| - 1])
    ensures TrimEnd(s + tail) == s
  {
    if tail == "" {
      assert s + tail == s;
    } else {
      var n := |tail| - 1;
      assert (s + tail)[..|s + tail| - 1] == s + tail[..n] && tail[n] in tail;
      TrimEndSkips(s, tail[..n]);
    }
  }

  lemma TrimPadded(s: string, item: string)
    requires Padded(s, item)
    ensures Trim(s) == item
  {
    var lead, tail :| IsBlank(lead) && IsBlank(tail) && s == lead + item + tail;
    assert s == lead + (item + tail);
    TrimStartSkips(lead, item + tail);
    TrimEndSkips(item, tail);
  }

  lemma TrimBlank(s: string)
    ensures Trim(s) == "" <==> IsBlank(s)
  {
    var lead, tail := TrimExactly(s);
    assert Trim(s) != "" ==> s[|lead|] == Trim(s)[0] && s[|lead|] in s;
  }

  lemma TrimNothing(s: string)
    requires NoWhitespace(s)
    ensures Trim(s) == s
  {
  }

  // ----- Searching and splitting

  /** The first index holding `c`, or the length. */
  function IndexOf(s: string, c: char): (i: nat)
    ensures i <= |s| && (i < |s| ==> s[i] == c) && c !in s[..i]
    ensures c in s <==> i < |s|
  {
    if s == "" || s[0] == c then 0
    else
      assert forall d :: d in s ==> d == s[0] || d in s[1..];
      1 + IndexOf(s[1..], c)
  }

  /** The last index holding `c`, or -1. */
  function LastIndexOf(s: string, c: char): (i: int)
    ensures -1 <= i < |s| && (i >= 0 ==> s[i] == c)
    ensures forall j :: i < j < |s| ==> s[j] != c
  {
    if s == "" then -1
    else if s[|s| - 1] == c then |s| - 1
    else LastIndexOf(s[..|s| - 1], c)
  }

  function CountOf(s: string, c: char): nat {
    if s == "" then 0 else (if s[0] == c then 1 else 0) + CountOf(s[1..], c)
  }

  lemma {:induction false} CountAppend(a: string, b: string, c: char)
    ensures CountOf(a + b, c) == CountOf(a, c) + CountOf(b, c)
  {
    if a == "" {
      assert a + b == b;
    } else {
      assert (a + b)[1..] == a[1..] + b;
      CountAppend(a[1..], b, c);
    }
  }

  lemma {:induction false} CountZero(s: string, c: char)
    ensures CountOf(s, c) == 0 <==> c !in s
  {
    if s != "" {
      CountZero(s[1..], c);
      assert forall d :: d in s <==> d == s[0] || d in s[1..];
    }
  }

  /** `s.split(sep)`: never empty. */
  function Split(s: string, sep: char): (parts: seq<string>)
    ensures parts != []
    ensures forall p :: p in parts ==> sep !in p
    decreases |s|
  {
    var i := IndexOf(s, sep);
    if i == |s| then
      assert s[..i] == s;
      [s]
    else [s[..i]] + Split(s[i + 1..], sep)
  }

  function Join(parts: seq<string>, sep: char): string {
    if parts == [] then ""
    else if |parts| == 1 then parts[0]
    else parts[0] + [sep] + Join(parts[1..], sep)
  }

  lemma {:induction false} IndexOfAppend(a: string, c: char, b: string)
    requires c !in a
    ensures IndexOf(a + [c] + b, c) == |a|
  {
    if a == "" {
      assert a + [c] + b == [c] + b;
    } else {
      assert a[0] in a && (a + [c] + b)[1..] == a[1..] + [c] + b;
      IndexOfAppend(a[1..], c, b);
    }
  }

  /** Splitting undoes joining. */
  lemma {:induction false} SplitJoin(parts: seq<string>, sep: char)
    requires parts != [] && forall p :: p in parts ==> sep !in p
    ensures Split(Join(parts, sep), sep) == parts
  {
    if |parts| == 1 {
      assert parts == [parts[0]];
    } else {
      var rest := Join(parts[1..], sep);
      var s := parts[0] + [sep] + rest;
      IndexOfAppend(parts[0], sep, rest);
      assert s[..|parts[0]|] == parts[0] && s[|parts[0]| + 1..] == rest;
      SplitJoin(parts[1..], sep);
    }
  }

  /** Joining undoes splitting. */
  lemma {:induction false} JoinSplit(s: string, sep: char)
    ensures Join(Split(s, sep), sep) == s
    decreases |s|
  {
    var i := IndexOf(s, sep);
    if i < |s| {
      var first, rest := s[..i], s[i + 1..];
      JoinSplit(rest, sep);
      assert ([first] + Split(rest, sep))[1..] == Split(rest, sep);
      assert s == first + [sep] + rest;
    } else {
      assert Split(s, sep) == [s];
    }
  }

  // ----- Words

  /** The length of the longest prefix without white space. */
  function WordLength(s: string): (n: nat)
    ensures n <= |s| && NoWhitespace(s[..n]) && (n < |s| ==> IsWhitespace(s[n]))
  {
    if s == "" || IsWhitespace(s[0]) then 0
    else
      var n := 1 + WordLength(s[1..]);
      assert s[..n] == [s[0]] + s[1..][..n - 1];
      n
  }

  /** `s.split_whitespace()`. */
  function Words(s: string): (words: seq<string>)
    decreases |s|
  {
    if s == "" then []
    else if IsWhitespace(s[0]) then Words(s[1..])
    else [s[..WordLength(s)]] + Words(s[WordLength(s)..])
  }

  lemma {:induction false} WordsSkipBlank(blank: string, s: string)
    requires IsBlank(blank)
    ensures Words(blank + s) == Words(s)
  {
    if blank == "" {
      assert blank + s == s;
    } else {
      assert (blank + s)[1..] == blank[1..] + s;
      WordsSkipBlank(blank[1..], s);
    }
  }

  lemma {:induction false} WordLengthIs(word: string, rest: string)
    requires NoWhitespace(word) && (rest == "" || IsWhitespace(rest[0]))
    ensures WordLength(word + rest) == |word|
  {
    if word == "" {
      assert word + rest == rest;
    } else {
      assert (word + rest)[1..] == word[1..] + rest;
      WordLengthIs(word[1..], rest);
    }
  }

  lemma WordsTakeWord(word: string, rest: string)
    requires word != "" && NoWhitespace(word) && (rest == "" || IsWhitespace(rest[0]))
    ensures Words(word + rest) == [word] + Words(rest)
  {
    WordLengthIs(word, rest);
    var s := word + rest;
    assert s[0] == word[0] && word[0] in word;
    assert s[..|word|] == word && s[|word|..] == rest;
  }

  lemma {:induction false} WordsOfTrimStart(s: string)
    ensures Words(TrimStart(s)) == Words(s)
  {
    if s != "" && IsWhitespace(s[0]) {
      WordsOfTrimStart(s[1..]);
    }
  }

  /** A trailing blank character adds no word. */
  lemma {:induction false} WordsAppendBlank(s: string, blank: char)
    requires IsWhitespace(blank)
    ensures Words(s + [blank]) == Words(s)
    decreases |s|
  {
    if s == "" {
      WordsSkipBlank([blank], "");
      assert s + [blank] == [blank] + "";
    } else if IsWhitespace(s[0]) {
      assert (s + [blank])[1..] == s[1..] + [blank];
      WordsAppendBlank(s[1..], blank);
    } else {
      var word, rest := s[..WordLength(s)], s[WordLength(s)..];
      assert s == word + rest && s + [blank] == word + (rest + [blank]);
      WordsTakeWord(word, rest);
      WordsTakeWord(word, rest + [blank]);
      WordsAppendBlank(rest, blank);
    }
  }

  lemma {:induction false} WordsOfTrimEnd(s: string)
    ensures Words(TrimEnd(s)) == Words(s)
    decreases |s|
  {
    if s != "" && IsWhitespace(s[|s| - 1]) {
      var t := s[..|s| - 1];
      assert s == t + [s[|s| - 1]];
      WordsAppendBlank(t, s[|s| - 1]);
      WordsOfTrimEnd(t);
    }
  }

  lemma WordsOfTrim(s: string)
    ensures Words(Trim(s)) == Words(s)
  {
    WordsOfTrimStart(s);
    WordsOfTrimEnd(TrimStart(s));
  }

  // ----- Decimal numbers

  predicate IsDigit(c: char) {
    '0' <= c <= '9'
  }

  predicate AllDigits(s: string) {
    forall c :: c in s ==> IsDigit(c)
  }

  function DigitsValue(s: string): nat
    requires AllDigits(s)
  {
    if s == "" then 0
    else
      assert s[|s| - 1] in s;
      DigitsValue(s[..|s| - 1]) * 10 + (s[|s| - 1] as int - '0' as int)
  }

  /** `str::parse` for an unsigned integer type with maximum `max`: a leading '+' and
      leading zeros are accepted, an empty string and an overflow are not. */
  function ParseUnsigned(s: string, max: nat): (r: Option<nat>)
    ensures r.Some? ==> r.value <= max
  {
    var t := if |s| > 1 && s[0] == '+' then s[1..] else s;
    if t != "" && AllDigits(t) && DigitsValue(t) <= max then Some(DigitsValue(t)) else None
  }

  /** Exactly which texts are numbers: decimal digits, at least one, behind one `+` or none. */
  lemma ParsesExactly(s: string, max: nat, digits: string)
    requires s == digits || s == "+" + digits
    ensures digits != "" && AllDigits(digits) ==>
              ParseUnsigned(s, max) == if DigitsValue(digits) <= max then Some(DigitsValue(digits)) else None
    ensures ParseUnsigned(s, max).Some? && s == "+" + digits ==> digits != "" && AllDigits(digits)
    ensures ParseUnsigned(s, max).Some? && (s == "" || s[0] != '+') ==> s != "" && AllDigits(s)
  {
    if s == "+" + digits {
      assert s[0] == '+' && s[1..] == digits && s[0] in s;
    } else if digits != "" && AllDigits(digits) {
      assert s[0] in s;
    }
  }

  function Decimal(n: nat): (s: string)
    ensures s != "" && AllDigits(s)
  {
    var last := [(n % 10 + '0' as int) as char];
    if n < 10 then last else Decimal(n / 10) + last
  }

  lemma {:induction false} DecimalValue(n: nat)
    ensures DigitsValue(Decimal(n)) == n
  {
    if n >= 10 {
      DecimalValue(n / 10);
      var s := Decimal(n);
      assert s[..|s| - 1] == Decimal(n / 10);
    }
  }

  /** Parsing undoes printing, up to the width of the type. */
  lemma ParseDecimal(n: nat, max: nat)
    ensures ParseUnsigned(Decimal(n), max) == if n <= max then Some(n) else None
  {
    DecimalValue(n);
    assert Decimal(n)[0] in Decimal(n);
  }
}
