/** The root command (cmd/root.go): the boolean environment switches and
    the global configuration its pre-run hook applies before every
    subcommand: the confirmation mode from `--yes` or `--confirm`, silent
    mode, and the built-in Agile columns for `--default-columns`. The
    process environment is a parameter: a variable's value, "" when it is
    unset. */
module Root {
  import opened Errors
  import opened Strs
  import opened Az
  import opened Board

  const TrueWords: set<string> := {"1", "true", "yes", "y", "on"}

  /** `envTrue`: the value, lower-cased and trimmed, is one of the words
      that switch an option on. */
  function EnvTrue(value: string): bool
  {
    TrimSpace(ToLower(value)) in TrueWords
  }

  lemma {:induction false} TrimLeftLower(s: string)
    ensures TrimLeft(ToLower(s)) == ToLower(TrimLeft(s))
  {
    if |s| > 0 {
      assert ToLower(s)[0] == ToLowerChar(s[0]);
      assert ToLower(s)[1..] == ToLower(s[1..]);
      if IsSpace(s[0]) {
        TrimLeftLower(s[1..]);
      }
    }
  }

  lemma {:induction false} TrimRightLower(s: string)
    ensures TrimRight(ToLower(s)) == ToLower(TrimRight(s))
  {
    if |s| > 0 {
      var init := s[..|s| - 1];
      var l := ToLower(s);
      assert l[|s| - 1] == ToLowerChar(s[|s| - 1]);
      assert l[..|s| - 1] == ToLower(init) by {
        assert forall i :: 0 <= i < |init| ==> l[..|s| - 1][i] == ToLowerChar(init[i]);
      }
      if IsSpace(s[|s| - 1]) {
        TrimRightLower(init);
      }
    }
  }

  /** Lower-casing and trimming commute, so `envTrue` reads a value the way
      the confirmation-mode parser normalises its word. */
  lemma EnvTrueNormalized(value: string)
    ensures EnvTrue(value) <==> Normalize(value) in TrueWords
  {
    TrimLeftLower(value);
    TrimRightLower(TrimLeft(value));
  }

  /** An unset variable is off. */
  lemma EnvTrueUnset()
    ensures !EnvTrue("")
  {
  }

  /** Case and surrounding white space do not matter. */
  lemma EnvTrueYes()
    ensures EnvTrue(" Yes\t")
  {
    assert ToLower(" Yes\t") == " yes\t";
    assert TrimLeft(" yes\t") == "yes\t";
    assert TrimRight("yes\t") == "yes";
  }

  /** A word outside the set, such as "no", is off. */
  lemma EnvTrueNo()
    ensures !EnvTrue("no")
  {
    assert ToLower("no") == "no";
    assert TrimSpace("no") == "no";
  }

  /** The default of `--po-order`: either `AB_PO_ORDER` or `AB_STACKRANK`
      switched on. */
  function PoOrderDefault(abPoOrder: string, abStackrank: string): bool
  {
    EnvTrue(abPoOrder) || EnvTrue(abStackrank)
  }

  /** `--po-order` defaults on iff either variable holds a word that switches
      an option on; two unset variables leave it off. */
  lemma PoOrderDefaultSpec(abPoOrder: string, abStackrank: string)
    ensures PoOrderDefault(abPoOrder, abStackrank) <==>
      Normalize(abPoOrder) in TrueWords || Normalize(abStackrank) in TrueWords
    ensures !PoOrderDefault("", "")
  {
    EnvTrueNormalized(abPoOrder);
    EnvTrueNormalized(abStackrank);
    EnvTrueUnset();
  }

  /** The root command's persistent flags. */
  datatype Flags = Flags(confirm: string, yes: bool, silent: bool, defaultColumns: bool)

  /** The confirmation mode the flags select from `current`, and the error
      of an invalid `--confirm` word: `--yes` selects `never` whatever
      `--confirm` says, an empty `--confirm` keeps the current mode. */
  function Configured(f: Flags, current: ConfirmMode): (ConfirmMode, Option<Error>)
  {
    if f.yes then ParseConfirmMode("never", current)
    else if f.confirm != "" then ParseConfirmMode(f.confirm, current)
    else (current, None)
  }

  /** `--yes` takes precedence over `--confirm`; without either the mode
      stays; an invalid `--confirm` word is the error and keeps the mode. */
  lemma ConfiguredSpec(f: Flags, current: ConfirmMode)
    ensures f.yes ==> Configured(f, current) == (Never, None)
    ensures !f.yes && f.confirm == "" ==> Configured(f, current) == (current, None)
    ensures !f.yes && f.confirm != "" ==> Configured(f, current) == ParseConfirmMode(f.confirm, current)
    ensures Configured(f, current).1.Some? ==>
      !f.yes && Configured(f, current) == (current, Some(InvalidConfirmMode(f.confirm)))
  {
    ParseConfirmModeNames(current);
  }

  /** `PersistentPreRunE`: the mode is set first and an error stops the
      hook there, before silent mode and the columns are touched. */
  method PreRun(c: Client, cols: Columns, f: Flags) returns (err: Option<Error>)
    modifies c`mode, c`silent, cols
    ensures (c.mode, err) == Configured(f, old(c.mode))
    ensures err.Some? ==> c.silent == old(c.silent) && cols.order == old(cols.order)
    ensures err.None? ==> c.silent == f.silent
    ensures err.None? ==> cols.order == if f.defaultColumns then AgileColumns else old(cols.order)
  {
    err := None;
    if f.yes {
      err := c.SetConfirmMode("never");
      if err.Some? {
        return;
      }
    } else if f.confirm != "" {
      err := c.SetConfirmMode(f.confirm);
      if err.Some? {
        return;
      }
    }
    c.SetSilent(f.silent);
    if f.defaultColumns {
      cols.SetDefaultAgileColumns();
    }
  }
}
