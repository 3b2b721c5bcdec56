/**
 * Name-pattern dispatch. The scene code tests node names with case-insensitive
 * regular expressions made of a literal ASCII word (`/lampe/i`, `/shadowLight/i`,
 * `/sol/i`, `/vapeur/i`, `/lampe_2/i`). Without the `u` flag JavaScript compares
 * characters after upper-casing them, but never lets a non-ASCII character fold
 * onto an ASCII one, so for an ASCII pattern the test is a substring search that
 * folds ASCII letters only.
 */
module Names {

  /** ASCII case folding: the only folding that can make a name character match an ASCII pattern character. */
  function Fold(c: char): char
  {
    if 'A' <= c <= 'Z' then (c as int + 32) as char else c
  }

  /** The pattern occurs in `s` at offset `i`, ignoring ASCII case. */
  ghost predicate MatchAt(s: string, pat: string, i: int)
  {
    0 <= i && i + |pat| <= |s| && forall j :: 0 <= j < |pat| ==> Fold(s[i + j]) == Fold(pat[j])
  }

  /** `/pat/i.test(s)`: is there an offset where the pattern occurs? */
  function ContainsCI(s: string, pat: string): (b: bool)
    ensures b <==> exists i :: MatchAt(s, pat, i)
    decreases |s|
  {
    if |s| < |pat| then
      false
    else if forall j :: 0 <= j < |pat| ==> Fold(s[j]) == Fold(pat[j]) then
      assert MatchAt(s, pat, 0);
      true
    else
      var r := ContainsCI(s[1..], pat);
      assert r ==> exists i :: MatchAt(s, pat, i) by {
        if r {
          var i :| MatchAt(s[1..], pat, i);
          assert MatchAt(s, pat, i + 1);
        }
      }
      assert (exists i :: MatchAt(s, pat, i)) ==> r by {
        if exists i :: MatchAt(s, pat, i) {
          var i :| MatchAt(s, pat, i);
          assert i != 0;
          assert MatchAt(s[1..], pat, i - 1);
        }
      }
      r
  }

  /** A name that matches the bulb pattern `lampe_2` also matches the lamp pattern `lampe`:
      clicking the bulb itself is a lamp click. */
  lemma BulbNameIsLampName(s: string)
    ensures ContainsCI(s, "lampe_2") ==> ContainsCI(s, "lampe")
  {
    if ContainsCI(s, "lampe_2") {
      var i :| MatchAt(s, "lampe_2", i);
      assert forall j :: 0 <= j < 5 ==> "lampe"[j] == "lampe_2"[j];
      assert MatchAt(s, "lampe", i);
    }
  }
}
