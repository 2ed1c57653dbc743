/** Terminal width detection (internal/term/width.go). The three probes are
    function variables in the source; here they are the values they return
    (the per-OS probes are not part of this model). */
module Width {
  import opened Errors
  import opened Strs

  const DefaultWidth := 80

  /** `DetectWidth`: the native probe, then `stty`, then `$COLUMNS`, then 80. */
  function DetectWidth(native: int, stty: int, columns: int): (w: int)
    ensures w > 0
  {
    if native > 0 then native
    else if stty > 0 then stty
    else if columns > 0 then columns
    else DefaultWidth
  }

  /** The first positive entry of `ws`, or 80 when there is none. */
  function FirstPositive(ws: seq<int>): (w: int)
  {
    if |ws| == 0 then DefaultWidth
    else if ws[0] > 0 then ws[0]
    else FirstPositive(ws[1..])
  }

  /** The precedence chain takes the first positive probe, in order. */
  lemma DetectWidthFirstPositive(native: int, stty: int, columns: int)
    ensures DetectWidth(native, stty, columns) == FirstPositive([native, stty, columns])
    ensures DetectWidth(native, stty, columns) in {native, stty, columns, DefaultWidth}
  {
    var ws := [native, stty, columns];
    assert ws[1..] == [stty, columns];
    assert ws[1..][1..] == [columns];
    assert FirstPositive([columns]) == if columns > 0 then columns else DefaultWidth by {
      assert [columns][1..] == [];
    }
  }

  /** `columnsEnv`: `$COLUMNS` as a positive integer, or 0 when it is
      unset, does not parse or is not positive. */
  function ColumnsEnv(env: string): (n: nat)
    ensures n > 0 ==> Atoi(env) == Some(n as int)
    ensures n == 0 ==> Atoi(env).None? || Atoi(env).value <= 0
  {
    if env == "" then 0
    else
      match Atoi(env)
      case Some(v) => if v > 0 then v else 0
      case None => 0
  }

  /** A positive 64-bit width written in decimal reads back as itself, and a
      non-positive one reads as 0. */
  lemma ColumnsEnvRoundTrip(n: int)
    requires InInt64(n)
    ensures ColumnsEnv(IntToString(n)) == if n > 0 then n else 0
  {
    AtoiIntToString(n);
  }
}
