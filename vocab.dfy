/** The character-level codec of `SmartHomeVocab` (src/train/model.py):
    `encode` looks each character up as a key and falls back to `<UNK>`'s id;
    `decode` concatenates the tokens of the ids and writes "<UNK>" for an
    unknown id. The functions here work on any table; the object holds the
    one of VocabTable. */
module Vocab {
  import opened VocabTable

  /** The id `encode` emits for one character. */
  function CharId(commands: map<string, int>, c: char): (id: int)
    requires Unk in commands
    ensures [c] in commands ==> id == commands[[c]]
    ensures [c] !in commands ==> id == commands[Unk]
  {
    if [c] in commands then commands[[c]] else commands[Unk]
  }

  /** What `encode` returns: one id per character, in order. */
  function EncodeText(commands: map<string, int>, text: string): (ids: seq<int>)
    requires Unk in commands
    ensures |ids| == |text|
    ensures forall i :: 0 <= i < |text| ==> ids[i] == CharId(commands, text[i])
  {
    seq(|text|, i requires 0 <= i < |text| => CharId(commands, text[i]))
  }

  /** The text `decode` writes for one id. */
  function IdText(idToToken: map<int, string>, id: int): (t: string)
    ensures id in idToToken ==> t == idToToken[id]
    ensures id !in idToToken ==> t == Unk
  {
    if id in idToToken then idToToken[id] else Unk
  }

  /** What `decode` returns: the texts of the ids, concatenated in order. */
  function DecodeIds(idToToken: map<int, string>, ids: seq<int>): string
    decreases |ids|
  {
    if ids == [] then "" else DecodeIds(idToToken, ids[..|ids| - 1]) + IdText(idToToken, ids[|ids| - 1])
  }

  /** Decoding distributes over concatenation. */
  lemma {:induction false} DecodeAppend(idToToken: map<int, string>, a: seq<int>, b: seq<int>)
    ensures DecodeIds(idToToken, a + b) == DecodeIds(idToToken, a) + DecodeIds(idToToken, b)
    decreases |b|
  {
    if b == [] {
      assert a + b == a;
    } else {
      var b' := b[..|b| - 1];
      var last := IdText(idToToken, b[|b| - 1]);
      assert (a + b)[..|a + b| - 1] == a + b';
      assert (a + b)[|a + b| - 1] == b[|b| - 1];
      DecodeAppend(idToToken, a, b');
      DecodeLast(idToToken, a + b);
      DecodeLast(idToToken, b);
      TextAssoc(DecodeIds(idToToken, a), DecodeIds(idToToken, b'), last);
    }
  }

  /** Decoding a non-empty list ends with the text of its last id. */
  lemma DecodeLast(idToToken: map<int, string>, ids: seq<int>)
    requires ids != []
    ensures DecodeIds(idToToken, ids) == DecodeIds(idToToken, ids[..|ids| - 1]) + IdText(idToToken, ids[|ids| - 1])
  {
  }

  lemma TextAssoc(x: string, y: string, z: string)
    ensures (x + y) + z == x + (y + z)
  {
  }

  /** `decode(encode(s)) == s` whenever every character of `s` is itself a
      key of a table with distinct ids. */
  lemma {:induction false} DecodeEncode(commands: map<string, int>, s: string)
    requires Unk in commands && Injective(commands)
    requires forall i :: 0 <= i < |s| ==> [s[i]] in commands
    ensures DecodeIds(Invert(commands), EncodeText(commands, s)) == s
    decreases |s|
  {
    if s != [] {
      var inv := Invert(commands);
      var init := s[..|s| - 1];
      var c := s[|s| - 1];
      var id := CharId(commands, c);
      DecodeEncode(commands, init);
      EncodeSnoc(commands, s);
      DecodeAppend(inv, EncodeText(commands, init), [id]);
      DecodeOne(commands, c);
      assert s == init + [c];
    }
  }

  /** Encoding one more character appends its id. */
  lemma EncodeSnoc(commands: map<string, int>, s: string)
    requires Unk in commands && s != []
    ensures EncodeText(commands, s) == EncodeText(commands, s[..|s| - 1]) + [CharId(commands, s[|s| - 1])]
  {
  }

  /** The id of a character that is a key decodes back to the character. */
  lemma DecodeOne(commands: map<string, int>, c: char)
    requires Unk in commands && Injective(commands) && [c] in commands
    ensures DecodeIds(Invert(commands), [CharId(commands, c)]) == [c]
  {
    var id := CharId(commands, c);
    assert [id][..0] == [];
    assert DecodeIds(Invert(commands), [id]) == "" + IdText(Invert(commands), id);
  }

  /** A character that is not a key comes back from the round trip as the
      five characters of "<UNK>". */
  lemma UnknownCharDecodesToUnk(commands: map<string, int>, c: char)
    requires Unk in commands && Injective(commands) && [c] !in commands
    ensures DecodeIds(Invert(commands), EncodeText(commands, [c])) == Unk
  {
    var inv := Invert(commands);
    assert EncodeText(commands, [c]) == [commands[Unk]];
    assert DecodeIds(inv, [commands[Unk]]) == DecodeIds(inv, []) + IdText(inv, commands[Unk]);
  }

  /** A key of more than one character (such as 打开) is never produced by
      `encode`, which looks up single characters. */
  lemma EncodeNeverMultiChar(commands: map<string, int>, text: string, k: string)
    requires Unk in commands && Injective(commands)
    requires k in commands && |k| != 1 && k != Unk
    ensures commands[k] !in EncodeText(commands, text)
  {
    var ids := EncodeText(commands, text);
    forall i | 0 <= i < |ids| ensures ids[i] != commands[k] {
      if [text[i]] in commands {
        assert [text[i]] != k;
      }
    }
  }

  /** The object of class SmartHomeVocab. */
  class SmartHomeVocab {
    const commands: map<string, int>
    const idToToken: map<int, string>
    const vocabSize: int

    /** The table, its inverse, and the table's key count. */
    ghost predicate Valid() {
      Unk in commands && Injective(commands) && idToToken == Invert(commands) && vocabSize == |commands|
    }

    constructor ()
      ensures commands == Commands() && idToToken == IdToToken()
      ensures vocabSize == 43
      ensures Valid()
    {
      CommandsWellFormed();
      CommandsFacts();
      commands := Commands();
      idToToken := IdToToken();
      vocabSize := |Commands()|;
    }

    /** `encode`. */
    method Encode(text: string) returns (tokens: seq<int>)
      requires Valid()
      ensures tokens == EncodeText(commands, text)
    {
      tokens := [];
      for i := 0 to |text|
        invariant tokens == EncodeText(commands, text[..i])
      {
        if [text[i]] in commands {
          tokens := tokens + [commands[[text[i]]]];
        } else {
          tokens := tokens + [commands[Unk]];
        }
      }
      assert text[..|text|] == text;
    }

    /** `decode`. */
    method Decode(tokenIds: seq<int>) returns (text: string)
      ensures text == DecodeIds(idToToken, tokenIds)
    {
      text := "";
      for i := 0 to |tokenIds|
        invariant text == DecodeIds(idToToken, tokenIds[..i])
      {
        assert tokenIds[..i + 1][..i] == tokenIds[..i];
        if tokenIds[i] in idToToken {
          text := text + idToToken[tokenIds[i]];
        } else {
          text := text + Unk;
        }
      }
      assert tokenIds[..|tokenIds|] == tokenIds;
    }
  }

  /** The round trip of 开灯 in any table where 开 is unknown and 灯 is a key. */
  lemma {:induction false} LampRoundTrip(commands: map<string, int>)
    requires Unk in commands && Injective(commands)
    requires "开" !in commands && "灯" in commands
    ensures DecodeIds(Invert(commands), EncodeText(commands, "开灯")) == "<UNK>灯"
  {
    var inv := Invert(commands);
    var ids := EncodeText(commands, "开灯");
    assert "开" == ['开'] && "灯" == ['灯'];
    assert ids == [commands[Unk], commands["灯"]];
    assert ids[..1] == [commands[Unk]];
    assert DecodeIds(inv, ids) == DecodeIds(inv, [commands[Unk]]) + IdText(inv, commands["灯"]);
    assert DecodeIds(inv, [commands[Unk]]) == DecodeIds(inv, []) + IdText(inv, commands[Unk]);
  }

  /** With the shipped table: 打 is unknown and comes back as "<UNK>", and
      开灯 loses its 开. */
  lemma RoundTripLosses()
    ensures DecodeIds(IdToToken(), EncodeText(Commands(), "打")) == Unk
    ensures DecodeIds(IdToToken(), EncodeText(Commands(), "开灯")) == "<UNK>灯"
  {
    CommandsWellFormed();
    CommandsFacts();
    CharKeys();
    assert "打" == ['打'];
    UnknownCharDecodesToUnk(Commands(), '打');
    LampRoundTrip(Commands());
  }

  /** The id 1 that '关闭' was first given decodes to "<UNK>". */
  lemma ClosingIdLost()
    ensures DecodeIds(IdToToken(), [1]) == Unk
  {
    CommandsFacts();
    var inv := IdToToken();
    assert DecodeIds(inv, [1]) == DecodeIds(inv, []) + IdText(inv, 1);
  }
}
