/**
 * The English-to-Hindi agent (`EnglishToHindiAgent.run`): the message is cut
 * into consecutive slices of at most 2000 characters, each slice is sent to a
 * translator on its own, and the translations are joined with single spaces.
 * The translator is a parameter: `None` stands for a call that raised or
 * returned nothing.
 */
module ChunkTranslate {
  import opened Wrappers
  import opened Strings

  /** The slice width the agent uses, below the translator's own request limit. */
  const ChunkSize: nat := 2000

  function Min(a: int, b: int): int { if a <= b then a else b }

  /** The number of slices: `len(range(0, n, 2000))`. */
  function ChunkCount(n: nat): nat { (n + ChunkSize - 1) / ChunkSize }

  /** The slice `message[i*2000 : i*2000+2000]`. */
  function Chunk(message: string, i: nat): string
    requires i < ChunkCount(|message|)
  {
    message[i * ChunkSize .. Min((i + 1) * ChunkSize, |message|)]
  }

  /** `[message[i:i+chunk_size] for i in range(0, len(message), chunk_size)]`. */
  function Chunks(message: string): (r: seq<string>)
    ensures |r| == 0 <==> message == []
    ensures r != [] ==> (|r| - 1) * ChunkSize < |message| <= |r| * ChunkSize
    ensures forall i :: 0 <= i < |r| ==> 0 < |r[i]| <= ChunkSize
    ensures forall i :: 0 <= i < |r| - 1 ==> |r[i]| == ChunkSize
  {
    seq(ChunkCount(|message|), i requires 0 <= i < ChunkCount(|message|) => Chunk(message, i))
  }

  /** What one slice contributes: the translation, or "" when the call raised or gave nothing. */
  function Piece(res: Option<string>): (r: string)
    ensures res.None? ==> r == ""
  {
    match res
    case Some(t) => t
    case None => ""
  }

  /** One translated piece per slice, in order. */
  function Pieces(chunks: seq<string>, translate: string -> Option<string>): seq<string>
  {
    seq(|chunks|, i requires 0 <= i < |chunks| => Piece(translate(chunks[i])))
  }

  /**
   * The agent's answer. `setupError` is the message of an exception raised
   * while creating the translator, which the outer handler turns into a
   * "Translation Error" answer.
   */
  function Translation(message: string, setupError: Option<string>, translate: string -> Option<string>): string {
    match setupError
    case Some(e) => "Translation Error: " + e
    case None => Join(Pieces(Chunks(message), translate), " ")
  }

  /** `EnglishToHindiAgent.run`: translate slice by slice, collecting the pieces in a list. */
  method Run(message: string, setupError: Option<string>, translate: string -> Option<string>) returns (answer: string)
    ensures answer == Translation(message, setupError, translate)
  {
    if setupError.Some? {
      return "Translation Error: " + setupError.value;
    }
    var chunks := Chunks(message);
    var translated: seq<string> := [];
    var i := 0;
    while i < |chunks|
      invariant 0 <= i <= |chunks|
      invariant |translated| == i
      invariant forall k :: 0 <= k < i ==> translated[k] == Piece(translate(chunks[k]))
    {
      var res := translate(chunks[i]);
      var piece := if res.Some? then res.value else "";
      translated := translated + [piece];
      i := i + 1;
    }
    assert translated == Pieces(chunks, translate);
    answer := Join(translated, " ");
  }

  // ---------------------------------------------------------------------------
  // Properties

  lemma {:induction false} ChunksPrefix(message: string, j: nat)
    requires j <= ChunkCount(|message|)
    ensures Concat(Chunks(message)[..j]) == message[..Min(j * ChunkSize, |message|)]
    decreases j
  {
    var cs := Chunks(message);
    if j > 0 {
      ChunksPrefix(message, j - 1);
      assert cs[..j][..j - 1] == cs[..j - 1];
      var a := Min((j - 1) * ChunkSize, |message|);
      var b := Min(j * ChunkSize, |message|);
      assert a == (j - 1) * ChunkSize;
      assert cs[j - 1] == message[a..b];
      assert message[..a] + message[a..b] == message[..b];
    }
  }

  /** Nothing is lost or duplicated: the slices concatenate back to the message. */
  lemma ChunksConcat(message: string)
    ensures Concat(Chunks(message)) == message
  {
    var n := ChunkCount(|message|);
    ChunksPrefix(message, n);
    assert Chunks(message)[..n] == Chunks(message);
    assert message[..Min(n * ChunkSize, |message|)] == message;
  }

  /** An empty message has no slices, and the answer is "". */
  lemma TranslateEmpty(translate: string -> Option<string>)
    ensures Chunks("") == []
    ensures Translation("", None, translate) == ""
  {
  }

  /** Past the first slice, the slices are those of the rest of the message. */
  lemma ChunksFront(message: string)
    requires |message| > ChunkSize
    ensures Chunks(message) == [message[..ChunkSize]] + Chunks(message[ChunkSize..])
  {
    var cs := Chunks(message);
    var rest := Chunks(message[ChunkSize..]);
    assert ChunkCount(|message|) == ChunkCount(|message| - ChunkSize) + 1;
    forall i | 0 <= i < |rest| ensures cs[i + 1] == rest[i] {
      assert message[ChunkSize..][i * ChunkSize .. Min((i + 1) * ChunkSize, |message| - ChunkSize)]
          == message[(i + 1) * ChunkSize .. Min((i + 2) * ChunkSize, |message|)];
    }
  }

  /**
   * For every translator, the answer is built slice by slice, in order: a
   * message of at most one slice gives that slice's piece, and a longer one
   * gives the first slice's piece, one space, then the answer for the rest.
   */
  lemma TranslationFront(message: string, translate: string -> Option<string>)
    ensures 0 < |message| <= ChunkSize ==> Translation(message, None, translate) == Piece(translate(message))
    ensures |message| > ChunkSize ==>
      Translation(message, None, translate)
        == Piece(translate(message[..ChunkSize])) + " " + Translation(message[ChunkSize..], None, translate)
  {
    if 0 < |message| <= ChunkSize {
      assert ChunkCount(|message|) == 1;
      assert Chunks(message)[0] == Chunk(message, 0) == message;
      assert Chunks(message) == [message];
    } else if |message| > ChunkSize {
      ChunksFront(message);
      var ps := Pieces(Chunks(message), translate);
      assert ps == [Piece(translate(message[..ChunkSize]))] + Pieces(Chunks(message[ChunkSize..]), translate);
      assert ps[1..] == Pieces(Chunks(message[ChunkSize..]), translate);
    }
  }

  /**
   * When no translated piece contains a space, splitting the answer at its
   * spaces recovers the pieces: one per slice, in slice order.
   */
  lemma TranslationPieces(message: string, translate: string -> Option<string>)
    requires message != []
    requires forall i :: 0 <= i < |Chunks(message)| ==> ' ' !in Piece(translate(Chunks(message)[i]))
    ensures SplitOn(Translation(message, None, translate), ' ') == Pieces(Chunks(message), translate)
  {
    var ps := Pieces(Chunks(message), translate);
    assert forall i :: 0 <= i < |ps| ==> ' ' !in ps[i];
    SplitOnJoin(ps, ' ');
  }
}
