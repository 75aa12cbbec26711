/** A bech32 text: a prefix, a separator, and the letters of the words and their checksum; and the npub of a public key. */
module Bech32 {
  import opened Results
  import opened Regroup
  import opened Register
  import opened Bip173

  const CHARSET := "qpzry9x8gf2tvdw0s3jn54khce6mua7l"
  const NOSTR_PUBKEY_BYTES := 32

  function Letter(word: bv32): char
    requires word < 0x20
  {
    WordIsIndex(word);
    CHARSET[word as int]
  }

  lemma WordIsIndex(word: bv32)
    requires word < 0x20
    ensures word as int < 32
  {
  }

  function Letters(words: seq<bv32>): string
    requires AreWords(words)
  {
    seq(|words|, i requires 0 <= i < |words| => Letter(words[i]))
  }

  lemma WordsJoin(a: seq<bv32>, b: seq<bv32>)
    requires AreWords(a) && AreWords(b)
    ensures AreWords(a + b)
  {
  }

  function CheckedWords(hrp: string, data: seq<bv32>): (words: seq<bv32>)
    requires AreWords(data)
    ensures AreWords(words) && |words| == |data| + 6 && words[..|data|] == data
  {
    hide *;
    WordsJoin(data, ChecksumOf(hrp, data));
    data + ChecksumOf(hrp, data)
  }

  function TextOf(hrp: string, data: seq<bv32>): string
    requires AreWords(data)
  {
    hrp + "1" + Letters(CheckedWords(hrp, data))
  }

  datatype Refusal = WordOutOfRange | WrongKeyLength

  method Bech32Encode(hrp: string, data: seq<bv32>) returns (r: Result<string, Refusal>)
    ensures r.Ok? <==> AreWords(data)
    ensures r.Ok? ==> r.value == TextOf(hrp, data)
    ensures r.Err? ==> r.error == WordOutOfRange
  {
    for i := 0 to |data|
      invariant AreWords(data[..i])
    {
      if data[i] > 31 {
        return Err(WordOutOfRange);
      }
      OneMoreWord(data, i);
    }
    assert data[..|data|] == data;
    hide *;
    var checksum := CreateChecksum(hrp, data);
    TextIsWordsAndChecksum(hrp, data);
    return Ok(hrp + "1" + Letters(data + checksum));
  }

  lemma OneMoreWord(data: seq<bv32>, i: nat)
    requires i < |data| && AreWords(data[..i]) && data[i] < 0x20
    ensures AreWords(data[..i + 1])
  {
  }

  lemma TextIsWordsAndChecksum(hrp: string, data: seq<bv32>)
    requires AreWords(data)
    ensures AreWords(data + ChecksumOf(hrp, data)) && TextOf(hrp, data) == hrp + "1" + Letters(data + ChecksumOf(hrp, data))
  {
    hide ChecksumOf, Verifies, Letters, AreWords;
    WordsJoin(data, ChecksumOf(hrp, data));
  }

  /** Where a letter stands in the character set, read off it. */
  function IndexOf(letter: char): nat {
    match letter
    case 'q' => 0
    case 'p' => 1
    case 'z' => 2
    case 'r' => 3
    case 'y' => 4
    case '9' => 5
    case 'x' => 6
    case '8' => 7
    case 'g' => 8
    case 'f' => 9
    case '2' => 10
    case 't' => 11
    case 'v' => 12
    case 'd' => 13
    case 'w' => 14
    case '0' => 15
    case 's' => 16
    case '3' => 17
    case 'j' => 18
    case 'n' => 19
    case '5' => 20
    case '4' => 21
    case 'k' => 22
    case 'h' => 23
    case 'c' => 24
    case 'e' => 25
    case '6' => 26
    case 'm' => 27
    case 'u' => 28
    case 'a' => 29
    case '7' => 30
    case 'l' => 31
    case _ => 32
  }

  lemma IndexOfLetter(i: nat)
    requires i < 32
    ensures IndexOf(CHARSET[i]) == i
  {
  }

  lemma LetterInjective(a: bv32, b: bv32)
    requires a < 0x20 && b < 0x20 && Letter(a) == Letter(b)
    ensures a == b
  {
    WordIsIndex(a);
    WordIsIndex(b);
    IndexOfLetter(a as int);
    IndexOfLetter(b as int);
    IndexInjective(a, b);
  }

  lemma IndexInjective(a: bv32, b: bv32)
    requires a as int == b as int
    ensures a == b
  {
    assert (a as int) as bv32 == a;
  }

  lemma LetterIsNotSeparator(word: bv32)
    requires word < 0x20
    ensures Letter(word) != '1'
  {
    WordIsIndex(word);
    assert forall i :: 0 <= i < 32 ==> CHARSET[i] != '1';
  }

  lemma SeparatorIsLast(hrp: string, words: seq<bv32>, at: nat)
    requires AreWords(words) && |hrp| < at < |hrp| + 1 + |words|
    ensures (hrp + "1" + Letters(words))[at] != '1'
  {
    LetterIsNotSeparator(words[at - |hrp| - 1]);
  }

  /** The text determines the prefix and the data, even when the prefix itself holds the separator. */
  lemma TextDeterminesParts(hrp: string, data: seq<bv32>, hrp': string, data': seq<bv32>)
    requires AreWords(data) && AreWords(data') && TextOf(hrp, data) == TextOf(hrp', data')
    ensures hrp == hrp' && data == data'
  {
    hide ChecksumOf, Verifies, Letter, CheckedWords;
    var words, words' := CheckedWords(hrp, data), CheckedWords(hrp', data');
    var text := TextOf(hrp, data);
    assert text[|hrp|] == '1' && text[|hrp'|] == '1';
    if |hrp| < |hrp'| {
      SeparatorIsLast(hrp, words, |hrp'|);
    } else if |hrp'| < |hrp| {
      SeparatorIsLast(hrp', words', |hrp|);
    }
    assert hrp == text[..|hrp|] == hrp';
    assert Letters(words) == text[|hrp| + 1..] == Letters(words');
    forall i | 0 <= i < |words|
      ensures words[i] == words'[i]
    {
      assert Letters(words)[i] == Letters(words')[i];
      LetterInjective(words[i], words'[i]);
    }
    assert words == words';
    assert data == words[..|data|] == words'[..|data'|] == data';
  }

  // ---------------------------------------------------------------- npub

  function NpubOf(pubkey: seq<bv8>): string {
    WordsKeepBits(BitsOfBytes(pubkey));
    TextOf("npub", WordsOf(BitsOfBytes(pubkey)))
  }

  method NpubEncode(pubkey: seq<bv8>) returns (r: Result<string, Refusal>)
    ensures |pubkey| == NOSTR_PUBKEY_BYTES ==> r == Ok(NpubOf(pubkey))
    ensures |pubkey| != NOSTR_PUBKEY_BYTES ==> r == Err(WrongKeyLength)
  {
    if |pubkey| != NOSTR_PUBKEY_BYTES {
      return Err(WrongKeyLength);
    }
    var words := EightBitsToFiveBits(pubkey);
    WordsKeepBits(BitsOfBytes(pubkey));
    r := Bech32Encode("npub", words);
  }

  /** An npub is 63 characters, and two keys never share one. */
  lemma NpubIdentifiesKey(pubkey: seq<bv8>, other: seq<bv8>)
    requires |pubkey| == NOSTR_PUBKEY_BYTES
    ensures |NpubOf(pubkey)| == 63
    ensures NpubOf(pubkey) == NpubOf(other) ==> pubkey == other
  {
    var bits, bits' := BitsOfBytes(pubkey), BitsOfBytes(other);
    WordsKeepBits(bits);
    WordsKeepBits(bits');
    assert |WordsOf(bits)| == 52;
    if NpubOf(pubkey) == NpubOf(other) {
      TextDeterminesParts("npub", WordsOf(bits), "npub", WordsOf(bits'));
      RegroupingUndoesWords(pubkey);
      RegroupingUndoesWords(other);
    }
  }
}
