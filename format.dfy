/**
 * The part of composite formatting the drama templates use: the positional
 * slots `{0}` and `{1}` are replaced by the first and second argument; every
 * other character is copied unchanged. Arguments are inserted as they are and
 * never scanned for slots themselves.
 */
module Formatting {

  /** `s` holds no opening brace, so no slot can start anywhere in it. */
  predicate NoBrace(s: string)
  {
    forall i :: 0 <= i < |s| ==> s[i] != '{'
  }

  /** `s` starts with the slot `{d}`. */
  predicate StartsWithSlot(s: string, d: char)
  {
    |s| >= 3 && s[0] == '{' && s[1] == d && s[2] == '}'
  }

  /** Fills the slots `{0}` and `{1}` of `template` with `arg0` and `arg1`. */
  function Format(template: string, arg0: string, arg1: string): (r: string)
    ensures NoBrace(template) ==> r == template
    decreases |template|
  {
    if StartsWithSlot(template, '0') then arg0 + Format(template[3..], arg0, arg1)
    else if StartsWithSlot(template, '1') then arg1 + Format(template[3..], arg0, arg1)
    else if template == [] then []
    else [template[0]] + Format(template[1..], arg0, arg1)
  }

  /** Literal text in front of the rest of a template is copied through unchanged. */
  lemma {:induction false} FormatLiteralPrefix(lit: string, rest: string, arg0: string, arg1: string)
    requires NoBrace(lit)
    ensures Format(lit + rest, arg0, arg1) == lit + Format(rest, arg0, arg1)
    decreases |lit|
  {
    if lit != [] {
      var s := lit + rest;
      assert s[0] == lit[0] && s[0] != '{';
      assert s[1..] == lit[1..] + rest;
      assert NoBrace(lit[1..]) by {
        forall i | 0 <= i < |lit[1..]| ensures lit[1..][i] != '{' {
          assert lit[1..][i] == lit[i + 1];
        }
      }
      FormatLiteralPrefix(lit[1..], rest, arg0, arg1);
      assert lit == [lit[0]] + lit[1..];
    } else {
      assert lit + rest == rest;
    }
  }

  /** A slot at the front is replaced by its argument. */
  lemma FormatSlotPrefix(rest: string, arg0: string, arg1: string)
    ensures Format("{0}" + rest, arg0, arg1) == arg0 + Format(rest, arg0, arg1)
    ensures Format("{1}" + rest, arg0, arg1) == arg1 + Format(rest, arg0, arg1)
  {
  }

  /**
   * A template made of literal text around the slots `{0}` and `{1}`, in that
   * order, renders as the literal text with the two arguments in those places,
   * whatever the arguments contain.
   */
  lemma FormatTwoSlots(pre: string, mid: string, post: string, arg0: string, arg1: string)
    requires NoBrace(pre) && NoBrace(mid) && NoBrace(post)
    ensures Format(pre + "{0}" + mid + "{1}" + post, arg0, arg1) == pre + arg0 + mid + arg1 + post
  {
    var tail := "{1}" + post;
    assert pre + "{0}" + mid + "{1}" + post == pre + ("{0}" + (mid + tail));
    calc {
      Format(pre + ("{0}" + (mid + tail)), arg0, arg1);
      { FormatLiteralPrefix(pre, "{0}" + (mid + tail), arg0, arg1); }
      pre + Format("{0}" + (mid + tail), arg0, arg1);
      { FormatSlotPrefix(mid + tail, arg0, arg1); }
      pre + (arg0 + Format(mid + tail, arg0, arg1));
      { FormatLiteralPrefix(mid, tail, arg0, arg1); }
      pre + (arg0 + (mid + Format(tail, arg0, arg1)));
      { FormatSlotPrefix(post, arg0, arg1); }
      pre + (arg0 + (mid + (arg1 + Format(post, arg0, arg1))));
      pre + (arg0 + (mid + (arg1 + post)));
    }
    assert pre + (arg0 + (mid + (arg1 + post))) == pre + arg0 + mid + arg1 + post;
  }

  /** The shape both drama templates have: the slots first and second, separated by literal text. */
  lemma FormatSlotsInOrder(mid: string, post: string, arg0: string, arg1: string)
    requires NoBrace(mid) && NoBrace(post)
    ensures Format("{0}" + mid + "{1}" + post, arg0, arg1) == arg0 + mid + arg1 + post
  {
    assert NoBrace("");
    FormatTwoSlots("", mid, post, arg0, arg1);
    assert "" + "{0}" == "{0}";
    assert "" + arg0 == arg0;
  }
}
