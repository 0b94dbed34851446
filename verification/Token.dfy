/** pkg/token: the characters-per-token estimate behind every budget. */
module Token {

  // Count on the byte length of a text.
  function CountLength(n: nat): (t: nat)
    ensures 4 * t >= n && (n > 0 ==> 4 * (t - 1) < n)
  {
    if n == 0 then 0 else (n + 3) / 4
  }

  function Count(s: string): (t: nat)
    ensures t == 0 <==> s == ""
    ensures 4 * t >= |s| && (s != "" ==> 4 * (t - 1) < |s|)
  {
    CountLength(|s|)
  }

  // The estimate is monotone and subadditive, but not additive.
  lemma CountSubadditive(m: nat, n: nat)
    ensures CountLength(m) <= CountLength(m + n) <= CountLength(m) + CountLength(n)
  {
    assert 4 * CountLength(m + n) < m + n + 4;
    assert 4 * (CountLength(m) + CountLength(n)) >= m + n;
    assert 4 * CountLength(m) < m + 4;
  }
}
