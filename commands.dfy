/**
 * The text the chat commands work with: the arguments of `/open` and
 * `/close`, the `/show` reply listing the exchange's positions, and the
 * one-line description of a Position (`Position.__str__`).
 */
module Commands {
  import opened Text
  import opened Follower

  // ---------------------------------------------------------------------------
  // `message.text.split()[1:]`

  /**
   * The characters `str.split()` treats as whitespace (those for which
   * `str.isspace()` holds): the ASCII controls 9-13 and 28-31, the space,
   * and the Unicode separators.
   */
  predicate IsSpace(c: char)
  {
    var n := c as int;
    9 <= n <= 13 || 28 <= n <= 32 || n == 0x85 || n == 0xA0 || n == 0x1680 ||
    0x2000 <= n <= 0x200A || n == 0x2028 || n == 0x2029 || n == 0x202F || n == 0x205F || n == 0x3000
  }

  predicate IsWord(w: string) { |w| > 0 && forall i :: 0 <= i < |w| ==> !IsSpace(w[i]) }

  /** The length of the run of non-space characters that starts `s`. */
  function WordLength(s: string): (n: nat)
    requires |s| > 0 && !IsSpace(s[0])
    ensures 1 <= n <= |s| && IsWord(s[..n])
    ensures n < |s| ==> IsSpace(s[n])
  {
    if |s| == 1 || IsSpace(s[1]) then 1
    else
      var n := 1 + WordLength(s[1..]);
      assert s[..n] == [s[0]] + s[1..][..n - 1];
      n
  }

  /** `s.split()`: the maximal runs of non-space characters, in order. */
  function Words(s: string): (r: seq<string>)
    ensures forall i :: 0 <= i < |r| ==> IsWord(r[i])
    decreases |s|
  {
    if s == [] then []
    else if IsSpace(s[0]) then Words(s[1..])
    else
      var n := WordLength(s);
      [s[..n]] + Words(s[n..])
  }

  /** The symbols after the command word, as `/open` and `/close` read them. */
  function CommandArgs(text: string): seq<string>
  {
    var words := Words(text);
    if words == [] then [] else words[1..]
  }

  /** Splitting words joined by single spaces gives the words back. */
  lemma {:induction false} WordsJoin(ws: seq<string>)
    requires forall i :: 0 <= i < |ws| ==> IsWord(ws[i])
    ensures Words(Join(ws, " ")) == ws
    decreases |ws|
  {
    if |ws| == 1 {
      WordsOfWord(ws[0], "");
      assert ws[0] + "" == ws[0];
    } else if |ws| > 1 {
      var rest := Join(ws[1..], " ");
      assert Join(ws, " ") == ws[0] + (" " + rest);
      WordsOfWord(ws[0], " " + rest);
      assert (" " + rest)[1..] == rest;
      WordsJoin(ws[1..]);
    }
  }

  /** A word followed by nothing or by a space is read as one word. */
  lemma WordsOfWord(w: string, tail: string)
    requires IsWord(w) && (tail == [] || IsSpace(tail[0]))
    ensures Words(w + tail) == [w] + Words(tail)
  {
    var s := w + tail;
    assert s[..|w|] == w && s[|w|..] == tail;
    WordLengthOf(w, tail);
  }

  lemma {:induction false} WordLengthOf(w: string, tail: string)
    requires IsWord(w) && (tail == [] || IsSpace(tail[0]))
    ensures WordLength(w + tail) == |w|
    decreases |w|
  {
    var s := w + tail;
    if |w| > 1 {
      assert s[1..] == w[1..] + tail;
      WordLengthOf(w[1..], tail);
    }
  }

  /**
   * `" ".join(s.split())` read one character at a time: whitespace before the
   * first word and after the last is dropped, and each run of whitespace
   * between two words becomes one space. `started` says a word character has
   * been seen; `gap` that whitespace followed it.
   */
  function Squeeze(s: string, started: bool, gap: bool): string
  {
    if s == [] then []
    else if IsSpace(s[0]) then Squeeze(s[1..], started, started)
    else (if gap then " " else "") + [s[0]] + Squeeze(s[1..], true, false)
  }

  function Collapse(s: string): string { Squeeze(s, false, false) }

  /** Squeezing a word and what follows it: the word is copied whole. */
  lemma {:induction false} SqueezeWord(w: string, tail: string, started: bool, gap: bool)
    requires IsWord(w)
    ensures Squeeze(w + tail, started, gap) == (if gap then " " else "") + w + Squeeze(tail, true, false)
    decreases |w|
  {
    var s := w + tail;
    assert s[0] == w[0] && s[1..] == w[1..] + tail;
    if |w| > 1 {
      SqueezeWord(w[1..], tail, true, false);
      assert [w[0]] + w[1..] == w;
    } else {
      assert w[1..] + tail == tail;
    }
  }

  /** `SqueezeWords` on a text that starts with a word, given the result for what follows its first space. */
  lemma SqueezeFirstWord(s: string, gap: bool)
    requires s != [] && !IsSpace(s[0])
    requires var tail := s[WordLength(s)..];
      tail != [] ==>
        Squeeze(tail[1..], true, true) == (if Words(tail[1..]) != [] then " " else "") + Join(Words(tail[1..]), " ")
    ensures Squeeze(s, gap, gap) == (if gap && Words(s) != [] then " " else "") + Join(Words(s), " ")
  {
    var n := WordLength(s);
    var w, tail := s[..n], s[n..];
    assert s == w + tail;
    assert Words(s) == [w] + Words(tail);
    SqueezeWord(w, tail, gap, gap);
    if tail != [] {
      assert Squeeze(tail, true, false) == Squeeze(tail[1..], true, true);
      assert Words(tail) == Words(tail[1..]);
      if Words(tail) != [] {
        JoinCons(w, Words(tail), " ");
      }
    }
  }

  lemma {:induction false} SqueezeWords(s: string, gap: bool)
    ensures Squeeze(s, gap, gap) == (if gap && Words(s) != [] then " " else "") + Join(Words(s), " ")
    decreases |s|
  {
    if s != [] {
      if IsSpace(s[0]) {
        SqueezeWords(s[1..], gap);
      } else {
        var tail := s[WordLength(s)..];
        if tail != [] {
          SqueezeWords(tail[1..], true);
        }
        SqueezeFirstWord(s, gap);
      }
    }
  }

  /**
   * The words of any text, joined by single spaces, are that text trimmed and
   * with every whitespace run squeezed to one space; with `Words`' own
   * contract (non-empty words without whitespace) this fixes the words.
   */
  lemma WordsCollapse(s: string)
    ensures Join(Words(s), " ") == Collapse(s)
  {
    SqueezeWords(s, false);
  }

  /** `/open BTCUSDT ETHUSDT` names exactly the symbols after the command. */
  lemma CommandArgsOfJoined(command: string, symbols: seq<string>)
    requires IsWord(command) && forall i :: 0 <= i < |symbols| ==> IsWord(symbols[i])
    ensures CommandArgs(Join([command] + symbols, " ")) == symbols
  {
    WordsJoin([command] + symbols);
    assert ([command] + symbols)[1..] == symbols;
  }

  // ---------------------------------------------------------------------------
  // The `/show` reply

  const NO_POSITIONS: string := "There are no open positions"
  const BLOCK_END: string := "\n***\n"

  /** One `key: value | ` entry of the reply. */
  function Entry(pos: Snapshot, key: string): string
    requires key in pos
  {
    key + ": " + pos[key] + " | "
  }

  function Entries(pos: Snapshot, keys: seq<string>): string
    requires forall k :: k in keys ==> k in pos
  {
    if keys == [] then "" else Entries(pos, keys[..|keys| - 1]) + Entry(pos, keys[|keys| - 1])
  }

  /** The lines for one position: its KEYS entries, then the separator. */
  function Block(pos: Snapshot): string
    requires HasKeys(pos)
  {
    Entries(pos, KEYS) + BLOCK_END
  }

  predicate AllHaveKeys(positions: seq<Snapshot>) { forall i :: 0 <= i < |positions| ==> HasKeys(positions[i]) }

  function ShowText(positions: seq<Snapshot>): string
    requires AllHaveKeys(positions)
  {
    if positions == [] then ""
    else ShowText(positions[..|positions| - 1]) + Block(positions[|positions| - 1])
  }

  /** The message `/show` sends. */
  function ShowReply(positions: seq<Snapshot>): string
    requires AllHaveKeys(positions)
  {
    var msg := ShowText(positions);
    if msg != "" then msg else NO_POSITIONS
  }

  /** The placeholder is sent exactly when the exchange lists no positions. */
  lemma ShowReplyNoPositions(positions: seq<Snapshot>)
    requires AllHaveKeys(positions)
    ensures ShowReply(positions) == NO_POSITIONS <==> positions == []
    ensures positions != [] ==> ShowReply(positions)[|ShowReply(positions)| - |BLOCK_END|..] == BLOCK_END
  {
    if positions != [] {
      var last := positions[|positions| - 1];
      var prefix := ShowText(positions[..|positions| - 1]) + Entries(last, KEYS);
      var msg := prefix + BLOCK_END;
      assert ShowText(positions) == msg;
      assert msg[|prefix|..] == BLOCK_END;
      assert msg[|msg| - 1] == '\n' != NO_POSITIONS[|NO_POSITIONS| - 1];
    }
  }

  /** The handler's outer loop: one block per listed position. */
  method BuildShowReply(positions: seq<Snapshot>) returns (reply: string)
    requires AllHaveKeys(positions)
    ensures reply == ShowReply(positions)
  {
    var msg := "";
    for i := 0 to |positions|
      invariant msg == ShowText(positions[..i])
    {
      assert positions[..i + 1][..i] == positions[..i];
      msg := AppendBlock(msg, positions[i]);
    }
    assert positions[..|positions|] == positions;
    reply := if msg != "" then msg else NO_POSITIONS;
  }

  /** The handler's inner loop: the entries of one position, then the separator. */
  method AppendBlock(msg0: string, pos: Snapshot) returns (msg: string)
    requires HasKeys(pos)
    ensures msg == msg0 + Block(pos)
  {
    msg := msg0;
    for j := 0 to |KEYS|
      invariant msg == msg0 + Entries(pos, KEYS[..j])
    {
      var key := KEYS[j];
      assert KEYS[..j + 1] == KEYS[..j] + [key];
      assert Entries(pos, KEYS[..j + 1]) == Entries(pos, KEYS[..j]) + Entry(pos, key);
      msg := msg + (key + ": " + pos[key] + " | ");
    }
    assert KEYS[..|KEYS|] == KEYS;
    msg := msg + BLOCK_END;
  }

  // ---------------------------------------------------------------------------
  // `Position.__str__`

  /** The `key: value` items for the given keys; `attrs` holds `str()` of each attribute. */
  function Items(attrs: map<string, string>, keys: seq<string>): (r: seq<string>)
    requires forall k :: k in keys ==> k in attrs
    ensures |r| == |keys|
    ensures forall i :: 0 <= i < |keys| ==> r[i] == keys[i] + ": " + attrs[keys[i]]
  {
    if keys == [] then [] else [keys[0] + ": " + attrs[keys[0]]] + Items(attrs, keys[1..])
  }

  /** `Position.__str__`: the KEYS items joined by `  ||  `. */
  function PositionText(attrs: map<string, string>): string
    requires HasKeys(attrs)
  {
    Join(Items(attrs, KEYS), "  ||  ")
  }
}
