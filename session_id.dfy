/**
 * Human-shareable session ids (backend/main.py:30-32, 49): three groups of three
 * lower-case letters joined by hyphens, such as "abc-def-ghi".
 *
 * The random source is an input: `randint(ord("a"), ord("z"))` is represented by the
 * integer code it returned, and one id attempt consumes nine such codes.
 */
module SessionId {

  /** A code `randint(ord("a"), ord("z"))` can return; both ends are inclusive. */
  predicate IsLetterCode(n: int) {
    97 <= n <= 122  // ord("a") .. ord("z")
  }

  predicate IsLetter(c: char) {
    'a' <= c <= 'z'
  }

  /** The nine letter codes drawn for one id attempt. */
  predicate IsDraw(draw: seq<int>) {
    |draw| == 9 && forall i | 0 <= i < 9 :: IsLetterCode(draw[i])
  }

  /** Three `chr` results joined: a string of three lower-case letters. */
  function RandXyz(codes: seq<int>): (s: string)
    requires |codes| == 3 && forall i | 0 <= i < 3 :: IsLetterCode(codes[i])
    ensures |s| == 3
    ensures forall i | 0 <= i < 3 :: IsLetter(s[i]) && s[i] as int == codes[i]
  {
    assert IsLetterCode(codes[0]) && IsLetterCode(codes[1]) && IsLetterCode(codes[2]);
    [codes[0] as char, codes[1] as char, codes[2] as char]
  }

  /** The shape of a session id: letters at every position but 3 and 7, which hold hyphens. */
  predicate IsGameId(id: string) {
    && |id| == 11
    && id[3] == '-' && id[7] == '-'
    && forall i | 0 <= i < 11 && i != 3 && i != 7 :: IsLetter(id[i])
  }

  /** The id formatted from one draw: `rand_xyz()-rand_xyz()-rand_xyz()`. */
  function GameId(draw: seq<int>): (id: string)
    requires IsDraw(draw)
    ensures IsGameId(id)
  {
    RandXyz(draw[..3]) + "-" + RandXyz(draw[3..6]) + "-" + RandXyz(draw[6..])
  }

  /** The draw that formats to a well-formed id: the codes of its nine letters. */
  function DrawOf(id: string): (draw: seq<int>)
    requires IsGameId(id)
    ensures IsDraw(draw)
  {
    var letters := id[..3] + id[4..7] + id[8..];
    seq(9, i requires 0 <= i < 9 => letters[i] as int)
  }

  /** Reading the codes back out of a formatted id recovers the draw. */
  lemma DrawOfGameId(draw: seq<int>)
    requires IsDraw(draw)
    ensures DrawOf(GameId(draw)) == draw
  {
  }

  /** Every well-formed id is produced by exactly the draw read out of it. */
  lemma GameIdOfDrawOf(id: string)
    requires IsGameId(id)
    ensures GameId(DrawOf(id)) == id
  {
  }

  /** Two attempts yield the same id only when they drew the same nine letters. */
  lemma GameIdInjective(d1: seq<int>, d2: seq<int>)
    requires IsDraw(d1) && IsDraw(d2)
    ensures GameId(d1) == GameId(d2) <==> d1 == d2
  {
    DrawOfGameId(d1);
    DrawOfGameId(d2);
  }
}
