/** String helpers with the semantics of the Java library calls the
    banking code relies on: `String.trim`, `String.toUpperCase` (for the
    Latin-1 range), `String.contains`, SQL `LIKE`, and decimal rendering of
    integers as done by string concatenation. */
module Texto {

  /** `String.trim` removes every leading and trailing character whose code
      point is at most U+0020. */
  predicate EsRecortable(c: char) {
    c <= ' '
  }

  function RecortarInicio(s: string): (r: string)
    ensures |r| <= |s|
  {
    if s != [] && EsRecortable(s[0]) then RecortarInicio(s[1..]) else s
  }

  /** Trimming the front drops a prefix of removable characters and stops
      at a character that stays. */
  lemma {:induction false} RecortarInicioDeja(s: string)
    ensures var r := RecortarInicio(s);
            && r == s[|s| - |r|..]
            && (forall k :: 0 <= k < |s| - |r| ==> EsRecortable(s[k]))
            && (r == [] || !EsRecortable(r[0]))
  {
    if s != [] && EsRecortable(s[0]) {
      RecortarInicioDeja(s[1..]);
    }
  }

  function RecortarFin(s: string): (r: string)
    ensures |r| <= |s|
  {
    if s != [] && EsRecortable(s[|s| - 1]) then RecortarFin(s[..|s| - 1]) else s
  }

  /** Trimming the end drops a suffix of removable characters and stops
      at a character that stays. */
  lemma {:induction false} RecortarFinDeja(s: string)
    ensures var r := RecortarFin(s);
            && r == s[..|r|]
            && (forall k :: |r| <= k < |s| ==> EsRecortable(s[k]))
            && (r == [] || !EsRecortable(r[|r| - 1]))
  {
    if s != [] && EsRecortable(s[|s| - 1]) {
      RecortarFinDeja(s[..|s| - 1]);
    }
  }

  /** Java's `s.trim()`. */
  function Trim(s: string): (r: string)
    ensures |r| <= |s|
  {
    RecortarFin(RecortarInicio(s))
  }

  /** A trimmed string is empty or starts and ends with characters `trim`
      keeps. */
  lemma TrimSinBordes(s: string)
    ensures var r := Trim(s);
            r == [] || (!EsRecortable(r[0]) && !EsRecortable(r[|r| - 1]))
  {
    var a := RecortarInicio(s);
    RecortarInicioDeja(s);
    RecortarFinDeja(a);
    var r := RecortarFin(a);
    if r != [] {
      assert r[0] == a[0];
    }
  }

  /** `s.trim().isEmpty()`, also what Bean Validation's `@NotBlank` tests. */
  predicate EsBlanco(s: string) {
    Trim(s) == []
  }

  /** A string is blank exactly when every character is one `trim` removes. */
  lemma EsBlancoSii(s: string)
    ensures EsBlanco(s) <==> forall k :: 0 <= k < |s| ==> EsRecortable(s[k])
  {
    var a := RecortarInicio(s);
    RecortarInicioDeja(s);
    RecortarFinDeja(a);
    if !forall k :: 0 <= k < |s| ==> EsRecortable(s[k]) {
      var k :| 0 <= k < |s| && !EsRecortable(s[k]);
      assert |s| - |a| <= k;
      assert !EsRecortable(a[0]);
    }
  }

  /** Trimming an already trimmed string changes nothing. */
  lemma TrimIdempotente(s: string)
    ensures Trim(Trim(s)) == Trim(s)
  {
    var t := Trim(s);
    TrimSinBordes(s);
    if t != [] {
      assert RecortarInicio(t) == t;
      assert RecortarFin(t) == t;
    }
  }

  /** `Character.toUpperCase` on ASCII and Latin-1 letters. */
  function Mayuscula(c: char): (r: char)
    ensures ('a' <= c <= 'z') ==> 'A' <= r <= 'Z'
    ensures !('a' <= c <= 'z') && !('à' <= c <= 'þ') ==> r == c || c == 'ÿ'
  {
    if 'a' <= c <= 'z' then (c as int - 32) as char
    else if 'à' <= c <= 'þ' && c != '÷' then (c as int - 32) as char
    else if c == 'ÿ' then 'Ÿ'
    else c
  }

  function Mayusculas(s: string): (r: string)
    ensures |r| == |s|
    ensures forall k :: 0 <= k < |s| ==> r[k] == Mayuscula(s[k])
  {
    if s == [] then [] else [Mayuscula(s[0])] + Mayusculas(s[1..])
  }

  /** `s.contains(t)`. */
  predicate Contiene(s: string, t: string) {
    exists i :: 0 <= i <= |s| && t <= s[i..]
  }

  /** Characters with a special meaning in an SQL `LIKE` pattern. */
  predicate EsComodin(c: char) {
    c == '%' || c == '_'
  }

  /** SQL `s LIKE p`: `%` matches any run of characters, `_` any single
      character, every other character itself. */
  predicate Like(s: string, p: string)
    decreases |s| + |p|
  {
    if p == [] then s == []
    else if p[0] == '%' then Like(s, p[1..]) || (s != [] && Like(s[1..], p))
    else s != [] && (p[0] == '_' || p[0] == s[0]) && Like(s[1..], p[1..])
  }

  lemma {:induction false} LikeTodo(s: string)
    ensures Like(s, "%")
    decreases |s|
  {
    if s != [] {
      LikeTodo(s[1..]);
    }
  }

  /** For a literal `t`, `s LIKE t%` holds exactly when `t` is a prefix of `s`. */
  lemma {:induction false} LikePrefijo(s: string, t: string)
    requires forall k :: 0 <= k < |t| ==> !EsComodin(t[k])
    ensures Like(s, t + "%") <==> t <= s
    decreases |t|
  {
    var p := t + "%";
    if t == [] {
      assert p == "%";
      LikeTodo(s);
    } else {
      assert p[0] == t[0] && p[1..] == t[1..] + "%";
      if s != [] {
        LikePrefijo(s[1..], t[1..]);
        assert t <= s <==> (s[0] == t[0] && t[1..] <= s[1..]);
      }
    }
  }

  /** `s LIKE %q` holds exactly when some suffix of `s` matches `q`. */
  lemma {:induction false} LikeSufijo(s: string, q: string)
    ensures Like(s, "%" + q) <==> exists i :: 0 <= i <= |s| && Like(s[i..], q)
    decreases |s|
  {
    var p := "%" + q;
    assert p[0] == '%' && p[1..] == q;
    if s == [] {
      assert s[0..] == s;
    } else {
      LikeSufijo(s[1..], q);
      if Like(s, q) {
        assert s[0..] == s;
      }
      if exists i :: 0 <= i <= |s| && Like(s[i..], q) {
        var i :| 0 <= i <= |s| && Like(s[i..], q);
        if i > 0 {
          assert s[1..][i - 1..] == s[i..];
        } else {
          assert s[0..] == s;
        }
      }
      if exists i :: 0 <= i <= |s| - 1 && Like(s[1..][i..], q) {
        var i :| 0 <= i <= |s| - 1 && Like(s[1..][i..], q);
        assert s[1..][i..] == s[i + 1..];
      }
    }
  }

  /** For a pattern without wildcards, `s LIKE %t%` is `s.contains(t)`. */
  lemma LikeContiene(s: string, t: string)
    requires forall k :: 0 <= k < |t| ==> !EsComodin(t[k])
    ensures Like(s, "%" + t + "%") <==> Contiene(s, t)
  {
    assert "%" + t + "%" == "%" + (t + "%");
    LikeSufijo(s, t + "%");
    if Contiene(s, t) {
      var i :| 0 <= i <= |s| && t <= s[i..];
      LikePrefijo(s[i..], t);
    }
    if Like(s, "%" + t + "%") {
      var i :| 0 <= i <= |s| && Like(s[i..], t + "%");
      LikePrefijo(s[i..], t);
    }
  }

  function Digito(d: nat): (c: char)
    requires d < 10
    ensures '0' <= c <= '9'
  {
    "0123456789"[d]
  }

  /** Decimal rendering of a non-negative integer, without leading zeros. */
  function NatATexto(n: nat): (r: string)
    ensures |r| >= 1
    ensures forall k :: 0 <= k < |r| ==> '0' <= r[k] <= '9'
    ensures |r| == 1 <==> n < 10
    decreases n
  {
    if n < 10 then [Digito(n)] else NatATexto(n / 10) + [Digito(n % 10)]
  }

  /** Decimal rendering of a Java `long` in `"..." + id`. */
  function EnteroATexto(i: int): string {
    if i < 0 then "-" + NatATexto(-i) else NatATexto(i)
  }

  lemma {:induction false} NatATextoInyectiva(a: nat, b: nat)
    requires NatATexto(a) == NatATexto(b)
    ensures a == b
    decreases a
  {
    var s := NatATexto(a);
    if a >= 10 && b >= 10 {
      assert Digito(a % 10) == s[|s| - 1] == Digito(b % 10);
      assert NatATexto(a / 10) == s[..|s| - 1] == NatATexto(b / 10);
      NatATextoInyectiva(a / 10, b / 10);
    } else if a < 10 && b < 10 {
      assert "0123456789"[a] == "0123456789"[b];
    }
  }

  /** Two different identifiers never render to the same text. */
  lemma EnteroATextoInyectiva(a: int, b: int)
    requires EnteroATexto(a) == EnteroATexto(b)
    ensures a == b
  {
    var s := EnteroATexto(a);
    assert (s[0] == '-') == (a < 0);
    assert (EnteroATexto(b)[0] == '-') == (b < 0);
    if a < 0 && b < 0 {
      assert NatATexto(-a) == s[1..] == NatATexto(-b);
      NatATextoInyectiva(-a, -b);
    } else if a >= 0 && b >= 0 {
      NatATextoInyectiva(a, b);
    }
  }

  /** Two-digit, zero-padded rendering used for the cents of an amount. */
  function DosCifras(n: nat): string
    requires n < 100
  {
    [Digito(n / 10), Digito(n % 10)]
  }

  /** `String.format("%.2f", x)` for a `BigDecimal`: rounding half-up to two
      decimals, the sign taken from the unrounded value, `.` as separator. */
  function FormatoDosDecimales(x: real): string {
    var abs := if x < 0.0 then -x else x;
    var centimos := (abs * 100.0 + 0.5).Floor;
    (if x < 0.0 then "-" else "") + NatATexto(centimos / 100) + "." + DosCifras(centimos % 100)
  }
  /** The UTF-16 code units Java stores for one character: characters
      outside the Basic Multilingual Plane become a surrogate pair. */
  function UnidadesCaracter(c: char): (r: seq<int>)
    ensures 1 <= |r| <= 2
    ensures |r| == 2 <==> c as int >= 0x1_0000
    ensures forall k :: 0 <= k < |r| ==> 0 <= r[k] < 0x1_0000
  {
    var v := c as int;
    if v < 0x1_0000 then [v]
    else [0xD800 + (v - 0x1_0000) / 0x400, 0xDC00 + (v - 0x1_0000) % 0x400]
  }

  /** The UTF-16 code units of a Java `String`. */
  function UnidadesUtf16(s: string): (r: seq<int>)
    ensures |s| <= |r| <= 2 * |s|
  {
    if s == [] then [] else UnidadesCaracter(s[0]) + UnidadesUtf16(s[1..])
  }

  /** `String.length()`, the length Bean Validation's `@Size` measures. */
  function LongitudJava(s: string): nat {
    |UnidadesUtf16(s)|
  }

  /** A string made only of Basic Multilingual Plane characters has one
      code unit per character. */
  lemma {:induction false} LongitudJavaBmp(s: string)
    requires forall k :: 0 <= k < |s| ==> s[k] as int < 0x1_0000
    ensures LongitudJava(s) == |s|
  {
    if s != [] {
      LongitudJavaBmp(s[1..]);
    }
  }

  /** Java lengths add up over a concatenation. */
  lemma {:induction false} LongitudJavaConcat(a: string, b: string)
    ensures LongitudJava(a + b) == LongitudJava(a) + LongitudJava(b)
  {
    if a == [] {
      assert a + b == b;
    } else {
      assert (a + b)[0] == a[0] && (a + b)[1..] == a[1..] + b;
      LongitudJavaConcat(a[1..], b);
    }
  }

  /** `trim` never makes a string longer in Java's measure. */
  lemma LongitudTrim(s: string)
    ensures LongitudJava(Trim(s)) <= LongitudJava(s)
  {
    var m := RecortarInicio(s);
    RecortarInicioDeja(s);
    assert s == s[..|s| - |m|] + m;
    LongitudJavaConcat(s[..|s| - |m|], m);
    var r := RecortarFin(m);
    RecortarFinDeja(m);
    assert m == r + m[|r|..];
    LongitudJavaConcat(r, m[|r|..]);
  }
}
