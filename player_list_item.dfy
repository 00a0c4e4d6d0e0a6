/** The username masking of a leaderboard row
    (src/components/leaderboard/PlayerListItem.tsx): short names are shown
    as they are, longer ones keep only their first two and last two or three
    characters around a run of asterisks. */
module PlayerListItem {
  /** `maskUsername(username, short)`. */
  function MaskUsername(username: string, short: bool := false): (masked: string)
    ensures |username| <= 4 ==> masked == username
    ensures |username| > 4 ==> |masked| == if short then 7 else 10
  {
    if |username| <= 4 then username
    else if short then username[..2] + "***" + username[|username| - 2..]
    else username[..2] + "*****" + username[|username| - 3..]
  }

  /** A longer name keeps its first two characters and its last two (short)
      or three (long) characters, with asterisks in between. */
  lemma MaskKeepsEnds(username: string, short: bool)
    requires |username| > 4
    ensures var masked := MaskUsername(username, short);
            var tail := if short then 2 else 3;
            && masked[..2] == username[..2]
            && masked[|masked| - tail..] == username[|username| - tail..]
            && forall i :: 2 <= i < |masked| - tail ==> masked[i] == '*'
  {
  }

  /** Nothing but the kept ends reaches the output: two longer names that
      agree on them are masked alike, whatever their middles are. */
  lemma MaskIgnoresMiddle(a: string, b: string, short: bool)
    requires |a| > 4 && |b| > 4
    requires a[..2] == b[..2]
    requires if short then a[|a| - 2..] == b[|b| - 2..] else a[|a| - 3..] == b[|b| - 3..]
    ensures MaskUsername(a, short) == MaskUsername(b, short)
  {
  }

  /** The row's highlight: the caller's own row is highlighted. */
  function RowClass(isCurrentUser: bool := false): (c: string)
    ensures c == "player-row-highlight" <==> isCurrentUser
  {
    if isCurrentUser then "player-row-highlight" else "player-row"
  }

  /** `isCurrentUser` defaults to false: a row is plain unless told otherwise. */
  lemma DefaultRowIsPlain()
    ensures RowClass() == "player-row" && RowClass() == RowClass(false)
  {
  }
}
