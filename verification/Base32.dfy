/** `_decode_base32` of totp.py over the library's `b32decode`, against the encoding of
    section 6 of RFC 4648. */
module Base32 {
  import opened Json
  import opened Digits

  // ── the alphabet ──────────────────────────────────────────────

  function Letter(n: nat): char
    requires n < 32
  {
    if n < 26 then 'A' + n as char else '2' + (n - 26) as char
  }

  function LetterValue(c: char): Option<nat> {
    if 'A' <= c <= 'Z' then Some((c - 'A') as nat)
    else if '2' <= c <= '7' then Some((c - '2') as nat + 26)
    else None
  }

  function Letters(ds: seq<nat>): (s: string)
    requires Below(32, ds)
    ensures |s| == |ds|
  {
    seq(|ds|, i requires 0 <= i < |ds| => Letter(ds[i]))
  }

  predicate InAlphabet(s: string) {
    forall i :: 0 <= i < |s| ==> LetterValue(s[i]).Some?
  }

  function Values(s: string): (ds: seq<nat>)
    requires InAlphabet(s)
    ensures |ds| == |s| && Below(32, ds)
  {
    seq(|s|, i requires 0 <= i < |s| => LetterValue(s[i]).value)
  }

  lemma ValuesOfLetters(ds: seq<nat>)
    requires Below(32, ds)
    ensures InAlphabet(Letters(ds)) && Values(Letters(ds)) == ds
  {
  }

  // ── encoding, without padding ─────────────────────────────────

  /** How many letters `k` bytes take; Filled adds the zero bits that complete the last. */
  function LettersFor(k: nat): nat
    requires 1 <= k <= 5
  {
    (8 * k + 4) / 5
  }

  function Filled(k: nat, v: nat): nat
    requires 1 <= k <= 5
  {
    if k == 1 then 4 * v else if k == 2 then 16 * v else if k == 3 then 2 * v else if k == 4 then 8 * v else v
  }

  function EncodeGroup(bytes: seq<nat>): string
    requires 1 <= |bytes| <= 5 && Below(256, bytes)
  {
    Letters(DigitsOf(32, Filled(|bytes|, ValueOf(256, bytes)), LettersFor(|bytes|)))
  }

  function Encode(bytes: seq<nat>): string
    requires Below(256, bytes)
  {
    if bytes == [] then ""
    else if |bytes| <= 5 then EncodeGroup(bytes)
    else EncodeGroup(bytes[..5]) + Encode(bytes[5..])
  }

  // ── b32decode ─────────────────────────────────────────────────

  datatype Quanta = Quanta(bytes: seq<nat>, acc: nat)

  /** The loop over eight-letter quanta; `acc` is the last accumulator. */
  function DecodeQuanta(s: string): (r: Option<Quanta>)
    decreases |s|
  {
    if s == "" then Some(Quanta([], 0))
    else
      var quantum := if |s| <= 8 then s else s[..8];
      if !InAlphabet(quantum) then None
      else
        var acc := ValueOf(32, Values(quantum));
        if |s| <= 8 then Some(Quanta(DigitsOf(256, acc, 5), acc))
        else match DecodeQuanta(s[8..])
          case None => None
          case Some(rest) => Some(Quanta(DigitsOf(256, acc, 5) + rest.bytes, rest.acc))
  }

  /** `rstrip(b"=")` */
  function StripPads(s: string): (r: string)
    ensures r <= s
  {
    if s != "" && s[|s| - 1] == '=' then StripPads(s[..|s| - 1]) else s
  }

  function Upper(s: string): string {
    seq(|s|, i requires 0 <= i < |s| => if 'a' <= s[i] <= 'z' then s[i] - 'a' + 'A' else s[i])
  }

  /** `base64.b32decode(s, casefold=True)`; None when it raises. */
  function B32Decode(s: string): Option<seq<nat>> {
    var body := StripPads(Upper(s));
    var pads := |s| - |body|;
    if |s| % 8 != 0 then None
    else match DecodeQuanta(body)
      case None => None
      case Some(q) =>
        Finish(q, pads)
  }

  /** How `b32decode` ends, once its loop is done. */
  function Finish(q: Quanta, pads: nat): Option<seq<nat>> {
    if pads !in {0, 1, 3, 4, 6} then None
    else if pads != 0 && |q.bytes| >= 5 then
      Some(q.bytes[..|q.bytes| - 5] + DigitsOf(256, Shift(32, q.acc, pads), 5)[..(43 - 5 * pads) / 8])
    else Some(q.bytes)
  }

  // ── _decode_base32 ────────────────────────────────────────────

  function Drop(s: string, c: char): string {
    if s == "" then "" else (if s[0] == c then "" else [s[0]]) + Drop(s[1..], c)
  }

  function Cleaned(secret: string): string {
    Upper(Drop(Drop(secret, ' '), '-'))
  }

  function Pads(n: nat): (s: string)
    ensures |s| == n && forall i :: 0 <= i < n ==> s[i] == '='
  {
    seq(n, i requires 0 <= i < n => '=')
  }

  /** The padding that completes a text of this length. */
  function PadCount(length: nat): (n: nat)
    ensures n < 8
  {
    (8 - length % 8) % 8
  }

  lemma PadCountCompletes(length: nat)
    ensures (length + PadCount(length)) % 8 == 0
  {
  }

  function DecodeSecret(secret: string): Option<seq<nat>> {
    var cleaned := Cleaned(secret);
    B32Decode(cleaned + Pads(PadCount(|cleaned|)))
  }

  // ── one group ─────────────────────────────────────────────────

  lemma FillFits(k: nat, v: nat)
    requires 1 <= k <= 5 && v < Pow(256, k)
    ensures Filled(k, v) < Pow(32, LettersFor(k))
  {
    var p := v;
    assert Shift(256, 1, 1) == 256 && Shift(256, 1, 2) == 0x1_0000 && Shift(256, 1, 3) == 0x100_0000;
    assert Shift(256, 1, 4) == 256 * Shift(256, 1, 3) && Shift(256, 1, 5) == 256 * Shift(256, 1, 4);
    assert Shift(32, 1, 2) == 1024 && Shift(32, 1, 3) == 32 * 1024 && Shift(32, 1, 4) == 32 * Shift(32, 1, 3);
    assert Shift(32, 1, 5) == 32 * Shift(32, 1, 4) && Shift(32, 1, 6) == 32 * Shift(32, 1, 5);
    assert Shift(32, 1, 7) == 32 * Shift(32, 1, 6) && Shift(32, 1, 8) == 32 * Shift(32, 1, 7);
  }

  /** The letters of a group with the zero letters that the padding stands for are the five
      bytes with zero bytes behind. */
  lemma PadsAreZeroBytes(k: nat, v: nat)
    requires 1 <= k <= 5
    ensures Shift(32, Filled(k, v), 8 - LettersFor(k)) == Shift(256, v, 5 - k)
  {
    var f := Filled(k, v);
    assert Shift(32, f, 1) == 32 * f && Shift(32, f, 2) == 1024 * f && Shift(32, f, 3) == 32 * Shift(32, f, 2);
    assert Shift(32, f, 4) == 32 * Shift(32, f, 3) && Shift(32, f, 5) == 32 * Shift(32, f, 4) && Shift(32, f, 6) == 32 * Shift(32, f, 5);
    assert Shift(256, v, 1) == 256 * v && Shift(256, v, 2) == 256 * Shift(256, v, 1);
    assert Shift(256, v, 3) == 256 * Shift(256, v, 2) && Shift(256, v, 4) == 256 * Shift(256, v, 3);
  }

  lemma GroupLetters(bytes: seq<nat>)
    requires 1 <= |bytes| <= 5 && Below(256, bytes)
    ensures var letters := EncodeGroup(bytes);
            && |letters| == LettersFor(|bytes|) && InAlphabet(letters)
            && ValueOf(32, Values(letters)) == Filled(|bytes|, ValueOf(256, bytes))
  {
    var k, v := |bytes|, ValueOf(256, bytes);
    DigitsOfValue(256, bytes);
    FillFits(k, v);
    var n := Filled(k, v);
    ValuesOfLetters(DigitsOf(32, n, LettersFor(k)));
    ValueOfDigits(32, n, LettersFor(k));
  }

  lemma GroupBytes(bytes: seq<nat>, acc: nat)
    requires 1 <= |bytes| <= 5 && Below(256, bytes)
    requires acc == Filled(|bytes|, ValueOf(256, bytes))
    ensures DigitsOf(256, Shift(32, acc, 8 - LettersFor(|bytes|)), 5)[..|bytes|] == bytes
  {
    PadsAreZeroBytes(|bytes|, ValueOf(256, bytes));
    ZeroBytesBehind(bytes, 5 - |bytes|);
  }

  lemma ZeroBytesBehind(bytes: seq<nat>, m: nat)
    requires Below(256, bytes)
    ensures DigitsOf(256, Shift(256, ValueOf(256, bytes), m), |bytes| + m)[..|bytes|] == bytes
  {
    var v := ValueOf(256, bytes);
    DigitsOfValue(256, bytes);
    ShiftedDigits(256, v, |bytes|, m);
  }

  // ── whole texts ───────────────────────────────────────────────

  /** The number of pads determines how many bytes the last group has. */
  lemma PadsTellBytes(k: nat, n: nat)
    requires 1 <= k <= 5 && n == PadCount(LettersFor(k))
    ensures n == 8 - LettersFor(k) && n in {0, 1, 3, 4, 6} && (n != 0 ==> (43 - 5 * n) / 8 == k) && (n == 0 <==> k == 5)
  {
    assert k == 1 || k == 2 || k == 3 || k == 4 || k == 5;
  }

  lemma FinishGroup(bytes: seq<nat>, five: seq<nat>, rebuilt: seq<nat>, acc: nat, n: nat)
    requires 1 <= |bytes| <= 5 && n == PadCount(LettersFor(|bytes|)) && |five| == 5
    requires rebuilt == DigitsOf(256, Shift(32, acc, n), 5) && rebuilt[..|bytes|] == bytes
    requires n == 0 ==> rebuilt == five
    ensures Finish(Quanta(five, acc), n) == Some(bytes)
  {
    PadsTellBytes(|bytes|, n);
    assert five[..0] + bytes == bytes;
    assert rebuilt[..5] == rebuilt;
  }

  /** The bytes of the earlier quanta are not touched at the end. */
  lemma FinishPrepends(head: seq<nat>, q: Quanta, n: nat, bytes: seq<nat>)
    requires |q.bytes| >= 5 && Finish(q, n) == Some(bytes)
    ensures Finish(Quanta(head + q.bytes, q.acc), n) == Some(head + bytes)
  {
    var longer := head + q.bytes;
    if n != 0 {
      var rebuilt := DigitsOf(256, Shift(32, q.acc, n), 5)[..(43 - 5 * n) / 8];
      assert longer[..|longer| - 5] == head + q.bytes[..|q.bytes| - 5];
      assert longer[..|longer| - 5] + rebuilt == head + (q.bytes[..|q.bytes| - 5] + rebuilt);
    }
  }

  /** The decoder's loop on these letters, then its end, gives these bytes. */
  ghost predicate Decodes(letters: string, bytes: seq<nat>) {
    && letters != "" && InAlphabet(letters)
    && DecodeQuanta(letters).Some?
    && |DecodeQuanta(letters).value.bytes| >= 5
    && Finish(DecodeQuanta(letters).value, PadCount(|letters|)) == Some(bytes)
  }

  lemma OneQuantum(bytes: seq<nat>)
    requires 1 <= |bytes| <= 5 && Below(256, bytes)
    ensures Decodes(EncodeGroup(bytes), bytes)
  {
    var letters := EncodeGroup(bytes);
    GroupLetters(bytes);
    var acc := ValueOf(32, Values(letters));
    QuantumRead(letters, acc);
    QuantumEnds(bytes, acc, PadCount(|letters|));
  }

  lemma QuantumEnds(bytes: seq<nat>, acc: nat, n: nat)
    requires 1 <= |bytes| <= 5 && Below(256, bytes) && n == PadCount(LettersFor(|bytes|))
    requires acc == Filled(|bytes|, ValueOf(256, bytes))
    ensures Finish(Quanta(DigitsOf(256, acc, 5), acc), n) == Some(bytes)
  {
    PadsTellBytes(|bytes|, n);
    GroupBytes(bytes, acc);
    FinishGroup(bytes, DigitsOf(256, acc, 5), DigitsOf(256, Shift(32, acc, n), 5), acc, n);
  }

  lemma QuantumRead(letters: string, acc: nat)
    requires 1 <= |letters| <= 8 && InAlphabet(letters) && acc == ValueOf(32, Values(letters))
    ensures DecodeQuanta(letters) == Some(Quanta(DigitsOf(256, acc, 5), acc))
  {
  }

  lemma QuantaUnfold(letters: string, rest: string)
    requires |letters| == 8 && InAlphabet(letters) && rest != "" && DecodeQuanta(rest).Some?
    ensures var q := DecodeQuanta(rest).value;
            DecodeQuanta(letters + rest) == Some(Quanta(DigitsOf(256, ValueOf(32, Values(letters)), 5) + q.bytes, q.acc))
  {
    var s := letters + rest;
    assert s[..8] == letters && s[8..] == rest;
  }

  /** A whole group comes back as it was. */
  lemma WholeGroup(head: seq<nat>)
    requires |head| == 5 && Below(256, head)
    ensures var letters := EncodeGroup(head);
            |letters| == 8 && InAlphabet(letters) && DigitsOf(256, ValueOf(32, Values(letters)), 5) == head
  {
    GroupLetters(head);
    var acc := Filled(5, ValueOf(256, head));
    GroupBytes(head, acc);
    assert DigitsOf(256, acc, 5)[..5] == DigitsOf(256, acc, 5);
  }

  lemma InAlphabetAppend(a: string, b: string)
    requires InAlphabet(a) && InAlphabet(b)
    ensures InAlphabet(a + b)
  {
  }

  lemma MoreQuanta(head: seq<nat>, letters: string, rest: string, bytes: seq<nat>)
    requires |letters| == 8 && InAlphabet(letters) && DigitsOf(256, ValueOf(32, Values(letters)), 5) == head
    requires Decodes(rest, bytes)
    ensures Decodes(letters + rest, head + bytes)
  {
    InAlphabetAppend(letters, rest);
    QuantaUnfold(letters, rest);
    PadCountRepeats(|rest|);
    FinishPrepends(head, DecodeQuanta(rest).value, PadCount(|rest|), bytes);
  }

  lemma PadCountRepeats(length: nat)
    ensures PadCount(8 + length) == PadCount(length)
  {
  }

  lemma {:induction false} EncodingDecodes(bytes: seq<nat>)
    requires bytes != [] && Below(256, bytes)
    ensures Decodes(Encode(bytes), bytes)
    decreases |bytes|
  {
    if |bytes| <= 5 {
      OneQuantum(bytes);
    } else {
      EncodingDecodes(bytes[5..]);
      GroupBefore(bytes[..5], bytes[5..], bytes);
    }
  }

  lemma GroupBefore(head: seq<nat>, tail: seq<nat>, bytes: seq<nat>)
    requires |head| == 5 && Below(256, head) && tail != [] && Below(256, tail)
    requires bytes == head + tail && Below(256, bytes) && Decodes(Encode(tail), tail)
    ensures Decodes(Encode(bytes), bytes)
  {
    WholeGroup(head);
    MoreQuanta(head, EncodeGroup(head), Encode(tail), tail);
    EncodeUnfolds(head, tail);
  }

  lemma EncodeUnfolds(head: seq<nat>, tail: seq<nat>)
    requires |head| == 5 && tail != [] && Below(256, head) && Below(256, tail) && Below(256, head + tail)
    ensures Encode(head + tail) == EncodeGroup(head) + Encode(tail)
  {
    var bytes := head + tail;
    assert bytes[..5] == head && bytes[5..] == tail;
  }

  lemma PadsAreStripped(body: string, n: nat)
    requires InAlphabet(body)
    ensures StripPads(body + Pads(n)) == body
  {
    forall i | 0 <= i < |body| ensures body[i] != '=' {
      assert LetterValue(body[i]).Some?;
    }
    StripNone(body, n);
  }

  lemma UpperKeepsAlphabet(body: string, n: nat)
    requires InAlphabet(body)
    ensures Upper(body + Pads(n)) == body + Pads(n)
  {
    var s := body + Pads(n);
    forall i | 0 <= i < |s| ensures Upper(s)[i] == s[i] {
      if i < |body| {
        assert LetterValue(body[i]).Some?;
      }
    }
  }

  lemma DecodeIsFinish(body: string, n: nat)
    requires InAlphabet(body) && (|body| + n) % 8 == 0
    ensures DecodeQuanta(body).Some? ==> B32Decode(body + Pads(n)) == Finish(DecodeQuanta(body).value, n)
    ensures DecodeQuanta(body).None? ==> B32Decode(body + Pads(n)) == None
  {
    PaddedText(body, n);
    DecodeOfStripped(body + Pads(n), body, n);
  }

  lemma PaddedText(body: string, n: nat)
    requires InAlphabet(body)
    ensures var s := body + Pads(n); Upper(s) == s && StripPads(s) == body && |s| == |body| + n
  {
    UpperKeepsAlphabet(body, n);
    PadsAreStripped(body, n);
  }

  lemma DecodeOfStripped(s: string, body: string, n: nat)
    requires Upper(s) == s && StripPads(s) == body && |s| == |body| + n && |s| % 8 == 0
    ensures DecodeQuanta(body).Some? ==> B32Decode(s) == Finish(DecodeQuanta(body).value, n)
    ensures DecodeQuanta(body).None? ==> B32Decode(s) == None
  {
  }

  lemma NothingDecodes()
    ensures DecodeQuanta("") == Some(Quanta([], 0)) && PadCount(0) == 0 && Finish(Quanta([], 0), 0) == Some([])
  {
  }

  /** Decoding the padded encoding of any bytes gives the bytes. */
  lemma PaddedDecodes(bytes: seq<nat>)
    requires Below(256, bytes)
    ensures B32Decode(Encode(bytes) + Pads(PadCount(|Encode(bytes)|))) == Some(bytes)
  {
    if bytes == [] {
      NothingDecodes();
      PadCountCompletes(0);
      DecodeIsFinish("", PadCount(0));
    } else {
      EncodingDecodes(bytes);
      DecodesPadded(Encode(bytes), bytes);
    }
  }

  lemma DecodesPadded(letters: string, bytes: seq<nat>)
    requires Decodes(letters, bytes)
    ensures B32Decode(letters + Pads(PadCount(|letters|))) == Some(bytes)
  {
    PadCountCompletes(|letters|);
    DecodeIsFinish(letters, PadCount(|letters|));
  }

  /** `secret` is `text` as a user may paste it: letters in either case, and spaces and
      hyphens put in anywhere. */
  predicate Decorates(secret: string, text: string)
    decreases |secret|
  {
    if secret == "" then text == ""
    else if secret[0] == ' ' || secret[0] == '-' then Decorates(secret[1..], text)
    else text != "" && SameLetter(secret[0], text[0]) && Decorates(secret[1..], text[1..])
  }

  predicate SameLetter(c: char, upper: char) {
    (c == upper && !('a' <= c <= 'z')) || ('A' <= upper <= 'Z' && c == upper - 'A' + 'a')
  }

  lemma {:induction false} DecoratedIsCleaned(secret: string, text: string)
    requires Decorates(secret, text)
    ensures Cleaned(secret) == text
    decreases |secret|
  {
    if secret == "" {
    } else if secret[0] == ' ' || secret[0] == '-' {
      DecoratedIsCleaned(secret[1..], text);
      DropSeparator(secret);
    } else {
      DecoratedIsCleaned(secret[1..], text[1..]);
      DropLetter(secret);
      assert text == [text[0]] + text[1..];
    }
  }

  lemma DropSeparator(secret: string)
    requires secret != "" && (secret[0] == ' ' || secret[0] == '-')
    ensures Cleaned(secret) == Cleaned(secret[1..])
  {
    var rest := Drop(secret[1..], ' ');
    if secret[0] == ' ' {
      assert Drop(secret, ' ') == rest;
    } else {
      var both := ['-'] + rest;
      assert Drop(secret, ' ') == both && both[1..] == rest;
      assert Drop(both, '-') == Drop(rest, '-');
    }
  }

  lemma DropLetter(secret: string)
    requires secret != "" && secret[0] != ' ' && secret[0] != '-'
    ensures Cleaned(secret) == Upper([secret[0]]) + Cleaned(secret[1..])
  {
    var rest := Drop(secret[1..], ' ');
    var both := [secret[0]] + rest;
    assert Drop(secret, ' ') == both && both[1..] == rest;
    assert Drop(both, '-') == [secret[0]] + Drop(rest, '-');
  }

  /** A secret that spells some bytes, with no padding or all of it, decodes to them. */
  lemma SecretDecodes(secret: string, bytes: seq<nat>)
    requires Below(256, bytes)
    requires var body := Encode(bytes);
             Decorates(secret, body) || Decorates(secret, body + Pads(PadCount(|body|)))
    ensures DecodeSecret(secret) == Some(bytes)
  {
    PaddedDecodes(bytes);
    DecorationsAgree(secret, Encode(bytes));
  }

  lemma DecorationsAgree(secret: string, body: string)
    requires Decorates(secret, body) || Decorates(secret, body + Pads(PadCount(|body|)))
    ensures DecodeSecret(secret) == B32Decode(body + Pads(PadCount(|body|)))
  {
    if Decorates(secret, body) {
      DecoratedIsCleaned(secret, body);
    } else {
      var padded := body + Pads(PadCount(|body|));
      DecoratedIsCleaned(secret, padded);
      PadCountCompletes(|body|);
      CompleteSecret(secret, padded);
    }
  }

  /** A secret with all its padding gets no more. */
  lemma CompleteSecret(secret: string, padded: string)
    requires Cleaned(secret) == padded && |padded| % 8 == 0
    ensures DecodeSecret(secret) == B32Decode(padded)
  {
    assert padded + Pads(0) == padded;
  }

  /** The computed padding is one that the decoder accepts for these lengths only. */
  lemma PaddingCompletes(length: nat)
    ensures var n := PadCount(length);
            (length + n) % 8 == 0 && (n in {0, 1, 3, 4, 6} <==> length % 8 in {0, 2, 4, 5, 7})
  {
  }

  // ── which secrets decode ──────────────────────────────────────

  lemma {:induction false} QuantaIffAlphabet(s: string)
    ensures DecodeQuanta(s).Some? <==> InAlphabet(s)
    decreases |s|
  {
    if |s| > 8 {
      QuantaIffAlphabet(s[8..]);
      assert s == s[..8] + s[8..];
      if InAlphabet(s[..8]) && InAlphabet(s[8..]) {
        forall i | 0 <= i < |s| ensures LetterValue(s[i]).Some? {
          assert s[i] == if i < 8 then s[..8][i] else s[8..][i - 8];
        }
      }
      if InAlphabet(s) {
        assert forall i :: 0 <= i < 8 ==> s[..8][i] == s[i];
        assert forall i :: 0 <= i < |s| - 8 ==> s[8..][i] == s[i + 8];
      }
    }
  }

  /** An unpadded secret decodes exactly when it is spelled in the alphabet and its length
      is one that whole bytes can have: the computed padding completes just those. */
  lemma UnpaddedDecodesIff(secret: string)
    requires '=' !in Cleaned(secret)
    ensures DecodeSecret(secret).Some? <==>
              InAlphabet(Cleaned(secret)) && |Cleaned(secret)| % 8 in {0, 2, 4, 5, 7}
  {
    var body := Cleaned(secret);
    UpperTwice(Drop(Drop(secret, ' '), '-'), PadCount(|body|));
    StripNone(body, PadCount(|body|));
    PadCountCompletes(|body|);
    UnpaddedIff(body, body + Pads(PadCount(|body|)), PadCount(|body|));
  }

  lemma UnpaddedIff(body: string, s: string, n: nat)
    requires n == PadCount(|body|) && |s| == |body| + n && |s| % 8 == 0
    requires Upper(s) == s && StripPads(s) == body
    ensures B32Decode(s).Some? <==> InAlphabet(body) && |body| % 8 in {0, 2, 4, 5, 7}
  {
    QuantaIffAlphabet(body);
    PaddingCompletes(|body|);
    DecodesIff(s, body, n);
  }

  lemma DecodesIff(s: string, body: string, n: nat)
    requires Upper(s) == s && StripPads(s) == body && |s| == |body| + n && |s| % 8 == 0
    ensures B32Decode(s).Some? <==> DecodeQuanta(body).Some? && n in {0, 1, 3, 4, 6}
  {
    DecodeOfStripped(s, body, n);
    FinishesIff(n);
  }

  lemma FinishesIff(n: nat)
    ensures forall q :: Finish(q, n).Some? <==> n in {0, 1, 3, 4, 6}
  {
  }

  lemma UpperTwice(raw: string, n: nat)
    ensures Upper(Upper(raw) + Pads(n)) == Upper(raw) + Pads(n)
  {
  }

  /** A text whose length is no multiple of eight is no Base32. */
  lemma OddLengthsFail(s: string)
    requires |s| % 8 != 0
    ensures B32Decode(s) == None
  {
  }

  lemma {:induction false} StripNone(body: string, n: nat)
    requires '=' !in body
    ensures StripPads(body + Pads(n)) == body
    decreases n
  {
    var s := body + Pads(n);
    if n > 0 {
      assert s[..|s| - 1] == body + Pads(n - 1);
      StripNone(body, n - 1);
    } else {
      assert s == body;
      if body != "" {
        assert body[|body| - 1] in body;
      }
    }
  }
}
