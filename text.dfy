/**
 * String helpers shared by every renderer: the behaviour of `Array.prototype.join`,
 * the text a literal turns into inside a template string, the placeholder list
 * `args.map(() => '?').join(',')`, and a reference definition of parameter binding.
 */
module Text {

  /** A literal operand. The model restricts JavaScript values to integers and strings. */
  datatype Literal = LInt(i: int) | LStr(s: string)

  /** `parts.join(sep)`: the parts in order with `sep` between neighbours. */
  function Join(parts: seq<string>, sep: string): string
  {
    if |parts| == 0 then ""
    else if |parts| == 1 then parts[0]
    else parts[0] + sep + Join(parts[1..], sep)
  }

  lemma {:induction false} JoinAppend(parts: seq<string>, last: string, sep: string)
    ensures Join(parts + [last], sep) == if parts == [] then last else Join(parts, sep) + sep + last
  {
    if |parts| > 1 {
      assert (parts + [last])[1..] == parts[1..] + [last];
      JoinAppend(parts[1..], last, sep);
    }
  }

  lemma {:induction false} JoinConcat(a: seq<string>, b: seq<string>, sep: string)
    requires a != [] && b != []
    ensures Join(a + b, sep) == Join(a, sep) + sep + Join(b, sep)
  {
    if |a| > 1 {
      assert (a + b)[1..] == a[1..] + b;
      JoinConcat(a[1..], b, sep);
    }
  }

  lemma ConcatAssoc(a: string, b: string, c: string)
    ensures a + (b + c) == a + b + c
  {
  }

  /** Joins of three and four parts, written out. */
  lemma Join3(a: string, b: string, c: string, sep: string)
    ensures Join([a, b, c], sep) == a + sep + b + sep + c
  {
    assert [a, b, c][1..] == [b, c];
    assert [b, c][1..] == [c];
    assert Join([b, c], sep) == b + sep + c;
  }

  lemma Join4(a: string, b: string, c: string, d: string, sep: string)
    ensures Join([a, b, c, d], sep) == a + sep + b + sep + c + sep + d
  {
    assert [a, b, c, d][1..] == [b, c, d];
    Join3(b, c, d, sep);
  }

  /** Number of occurrences of `c` in `s`. */
  function Count(c: char, s: string): nat
  {
    if s == [] then 0 else (if s[0] == c then 1 else 0) + Count(c, s[1..])
  }

  lemma {:induction false} CountConcat(c: char, a: string, b: string)
    ensures Count(c, a + b) == Count(c, a) + Count(c, b)
  {
    if a != [] {
      assert (a + b)[1..] == a[1..] + b;
      CountConcat(c, a[1..], b);
    } else {
      assert a + b == b;
    }
  }

  /** `args.map(() => '?').join(',')` for `n` arguments. */
  function Placeholders(n: nat): string
  {
    Join(seq(n, _ => "?"), ",")
  }

  lemma PlaceholdersStep(n: nat)
    requires n >= 1
    ensures Placeholders(n + 1) == "?," + Placeholders(n)
  {
    assert seq(n + 1, _ => "?")[1..] == seq(n, _ => "?");
  }

  /** The placeholder list alternates `?` and `,`, starting and ending with `?`. */
  lemma {:induction false} PlaceholdersShape(n: nat)
    ensures |Placeholders(n)| == if n == 0 then 0 else 2 * n - 1
    ensures forall i :: 0 <= i < |Placeholders(n)| ==>
              Placeholders(n)[i] == if i % 2 == 0 then '?' else ','
  {
    if n > 1 {
      PlaceholdersShape(n - 1);
      PlaceholdersStep(n - 1);
    }
  }

  /** `n` placeholders hold exactly `n` question marks and `n - 1` commas. */
  lemma {:induction false} PlaceholderCount(n: nat)
    ensures Count('?', Placeholders(n)) == n
    ensures Count(',', Placeholders(n)) == if n == 0 then 0 else n - 1
  {
    if n > 1 {
      PlaceholderCount(n - 1);
      PlaceholdersStep(n - 1);
      CountConcat('?', "?,", Placeholders(n - 1));
      CountConcat(',', "?,", Placeholders(n - 1));
    }
  }

  /**
   * Reference definition of binding: each `?` of the template, from left to
   * right, is replaced by the next value; a `?` with no value left stays.
   */
  function Bind(template: string, values: seq<string>): (r: string)
    ensures values == [] || Count('?', template) == 0 ==> r == template
    decreases |template|
  {
    if template == [] then ""
    else if template[0] == '?' && values != [] then values[0] + Bind(template[1..], values[1..])
    else [template[0]] + Bind(template[1..], values)
  }

  lemma {:induction false} BindPlain(plain: string, rest: string, values: seq<string>)
    requires Count('?', plain) == 0
    ensures Bind(plain + rest, values) == plain + Bind(rest, values)
  {
    if plain != [] {
      assert (plain + rest)[1..] == plain[1..] + rest;
      BindPlain(plain[1..], rest, values);
    } else {
      assert plain + rest == rest;
    }
  }

  /** Binding into a placeholder list of two or more marks fills the first mark, keeps its comma and goes on. */
  lemma BindPlaceholdersHead(values: seq<string>, rest: string, more: seq<string>)
    requires |values| > 1
    ensures Bind(Placeholders(|values|) + rest, values + more)
         == values[0] + ("," + Bind(Placeholders(|values| - 1) + rest, values[1..] + more))
  {
    var n := |values|;
    PlaceholdersStep(n - 1);
    var t := Placeholders(n - 1) + rest;
    assert Placeholders(n) + rest == "?" + ("," + t);
    assert ("?" + ("," + t))[1..] == "," + t;
    assert (values + more)[1..] == values[1..] + more;
    assert ("," + t)[1..] == t;
  }

  /** Binding values into their own placeholder list yields the values joined by `,`, in order. */
  lemma {:induction false} BindPlaceholders(values: seq<string>, rest: string, more: seq<string>)
    ensures Bind(Placeholders(|values|) + rest, values + more) == Join(values, ",") + Bind(rest, more)
  {
    var n := |values|;
    if n == 1 {
      assert Placeholders(1) == "?";
      assert ("?" + rest)[1..] == rest;
      assert (values + more)[1..] == more;
    } else if n > 1 {
      BindPlaceholdersHead(values, rest, more);
      BindPlaceholders(values[1..], rest, more);
      assert |values[1..]| == n - 1;
    } else {
      assert Placeholders(0) + rest == rest;
      assert values + more == more;
    }
  }

  function DigitText(d: nat): (r: string)
    requires d < 10
    ensures |r| == 1 && '0' <= r[0] <= '9'
  {
    ["0123456789"[d]]
  }

  /** Decimal digits of a natural number, without leading zeros. */
  function NatText(n: nat): (r: string)
    ensures |r| >= 1
    ensures forall i :: 0 <= i < |r| ==> '0' <= r[i] <= '9'
    ensures |r| > 1 ==> r[0] != '0'
  {
    if n < 10 then DigitText(n)
    else NatText(n / 10) + DigitText(n % 10)
  }

  /** The value of a string of decimal digits, read most significant first. */
  function DigitsValue(s: string): nat
    requires forall i :: 0 <= i < |s| ==> '0' <= s[i] <= '9'
  {
    if s == [] then 0 else 10 * DigitsValue(s[..|s| - 1]) + (s[|s| - 1] as int - '0' as int)
  }

  /** `NatText` is exact: reading its digits back gives the number. */
  lemma {:induction false} NatTextValue(n: nat)
    ensures DigitsValue(NatText(n)) == n
  {
    if n < 10 {
      assert DigitText(n)[..0] == [];
      assert "0123456789"[n] as int == '0' as int + n;
    } else {
      var s := NatText(n);
      assert s[..|s| - 1] == NatText(n / 10);
      NatTextValue(n / 10);
      var d := n % 10;
      assert "0123456789"[d] as int == '0' as int + d;
    }
  }

  /** Decimal text of an integer-valued JavaScript number. */
  function IntText(i: int): string
  {
    if i < 0 then "-" + NatText(-i) else NatText(i)
  }

  /**
   * `IntText` is exact: a `-` exactly for a negative number, then the decimal
   * digits of its magnitude.
   */
  lemma IntTextValue(i: int)
    ensures var r := IntText(i); |r| >= 1 && (r[0] == '-' <==> i < 0)
    ensures var digits := if i < 0 then IntText(i)[1..] else IntText(i);
      digits == NatText(if i < 0 then -i else i) && DigitsValue(digits) == (if i < 0 then -i else i)
  {
    NatTextValue(if i < 0 then -i else i);
    if i < 0 {
      assert IntText(i)[1..] == NatText(-i);
    }
  }

  /** The text of `${arg}` for a literal: a number in decimal, a string as it is. */
  function LitText(l: Literal): string
  {
    match l
    case LInt(i) => IntText(i)
    case LStr(s) => s
  }

  function LitTexts(ls: seq<Literal>): (r: seq<string>)
    ensures |r| == |ls| && forall i :: 0 <= i < |ls| ==> r[i] == LitText(ls[i])
  {
    seq(|ls|, i requires 0 <= i < |ls| => LitText(ls[i]))
  }
}
