/**
  The part of Go's `fmt` formatting the service relies on: `Sprintf` over a
  template whose verbs are `%s` (and `%%`), and `%d` of an integer.
 */
module Fmt {

  /**
    `fmt.Sprintf(format, args...)` with string arguments, for the verbs `%s` and
    `%%`. A `%s` with no argument left prints `%!s(MISSING)`, a trailing lone `%`
    prints `%!(NOVERB)`, and arguments left over are listed after the text as
    `%!(EXTRA string=a, string=b)`. Other verbs are not part of this model and are
    copied through as plain characters.
   */
  function Sprintf(format: string, args: seq<string>): string
    decreases |format|
  {
    if format == [] then Extra(args)
    else if format[0] != '%' then [format[0]] + Sprintf(format[1..], args)
    else if |format| == 1 then "%!(NOVERB)" + Extra(args)
    else if format[1] == '%' then "%" + Sprintf(format[2..], args)
    else if format[1] == 's' then
      if args == [] then "%!s(MISSING)" + Sprintf(format[2..], args)
      else args[0] + Sprintf(format[2..], args[1..])
    else [format[0]] + Sprintf(format[1..], args)
  }

  /** The `%!(EXTRA …)` suffix for arguments no verb consumed. */
  function Extra(args: seq<string>): string {
    if args == [] then "" else "%!(EXTRA " + ExtraList(args) + ")"
  }

  function ExtraList(args: seq<string>): string
    requires args != []
  {
    "string=" + args[0] + if |args| == 1 then "" else ", " + ExtraList(args[1..])
  }

  /** A stretch of a template without verbs is copied through unchanged. */
  lemma {:induction false} SprintfLiteral(lit: string, rest: string, args: seq<string>)
    requires '%' !in lit
    ensures Sprintf(lit + rest, args) == lit + Sprintf(rest, args)
  {
    if lit == [] {
      assert lit + rest == rest;
    } else {
      assert (lit + rest)[0] == lit[0];
      assert (lit + rest)[1..] == lit[1..] + rest;
      SprintfLiteral(lit[1..], rest, args);
      assert lit == [lit[0]] + lit[1..];
    }
  }

  /** A `%s` verb consumes the next argument and prints it as it is. */
  lemma SprintfVerb(rest: string, arg: string, args: seq<string>)
    ensures Sprintf("%s" + rest, [arg] + args) == arg + Sprintf(rest, args)
  {
    var f := "%s" + rest;
    assert f[0] == '%' && f[1] == 's' && f[2..] == rest;
    assert ([arg] + args)[1..] == args;
  }

  /**
    A template with exactly two `%s` verbs and no other `%`, given two
    arguments, has the first argument in place of the first verb and the second
    in place of the second, and nothing is appended.
   */
  lemma SprintfTwoPlaceholders(pre: string, mid: string, post: string, a: string, b: string)
    requires '%' !in pre && '%' !in mid && '%' !in post
    ensures Sprintf(pre + "%s" + mid + "%s" + post, [a, b]) == pre + a + mid + b + post
  {
    var tail := "%s" + post;
    var middle := "%s" + (mid + tail);
    calc {
      Sprintf(pre + "%s" + mid + "%s" + post, [a, b]);
      { assert pre + "%s" + mid + "%s" + post == pre + middle; }
      Sprintf(pre + middle, [a, b]);
      { SprintfLiteral(pre, middle, [a, b]); }
      pre + Sprintf(middle, [a, b]);
      { assert [a, b] == [a] + [b]; SprintfVerb(mid + tail, a, [b]); }
      pre + (a + Sprintf(mid + tail, [b]));
      { SprintfLiteral(mid, tail, [b]); }
      pre + (a + (mid + Sprintf(tail, [b])));
      { assert [b] == [b] + []; SprintfVerb(post, b, []); }
      pre + (a + (mid + (b + Sprintf(post, []))));
      { SprintfLiteral(post, [], []); assert post + [] == post; }
      pre + (a + (mid + (b + (post + Sprintf([], [])))));
      pre + a + mid + b + post;
    }
  }

  /**
    A template with a single `%s` leaves the second coordinate over; it is
    appended after the text as `%!(EXTRA string=…)`.
   */
  lemma SprintfOneVerbExtra(pre: string, post: string, a: string, b: string)
    requires '%' !in pre && '%' !in post
    ensures Sprintf(pre + "%s" + post, [a, b]) == pre + a + post + "%!(EXTRA string=" + b + ")"
  {
    calc {
      Sprintf(pre + "%s" + post, [a, b]);
      { assert pre + "%s" + post == pre + ("%s" + post); }
      Sprintf(pre + ("%s" + post), [a, b]);
      { SprintfLiteral(pre, "%s" + post, [a, b]); }
      pre + Sprintf("%s" + post, [a, b]);
      { assert [a, b] == [a] + [b]; SprintfVerb(post, a, [b]); }
      pre + (a + Sprintf(post, [b]));
      { SprintfLiteral(post, [], [b]); assert post + [] == post; }
      pre + (a + (post + Sprintf([], [b])));
    }
  }

  /** `%d` of a Go `int`: optional minus sign, then decimal digits. */
  function Decimal(n: int): string {
    if n < 0 then "-" + Digits(-n) else Digits(n)
  }

  function Digits(n: nat): string
    decreases n
  {
    if n < 10 then [DigitChar(n)] else Digits(n / 10) + [DigitChar(n % 10)]
  }

  function DigitChar(d: nat): char
    requires d < 10
  {
    "0123456789"[d]
  }
}
