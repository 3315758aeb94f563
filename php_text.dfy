/**
 * The PHP string built-ins the client relies on: truthiness of a string,
 * `strtolower` and `explode("\n", ...)`.
 */
module PhpText {

  import opened Wrappers

  /** PHP's truthiness of a string: only "" and "0" are falsy. */
  predicate Truthy(s: string) {
    s != "" && s != "0"
  }

  /** `strtolower` on one character (ASCII letters only, as PHP 8.2 and later). */
  function LowerChar(c: char): char {
    if 'A' <= c <= 'Z' then (c as int + 32) as char else c
  }

  /** `strtolower`: lower-cases every character, keeping the length. */
  function ToLower(s: string): (r: string)
    ensures |r| == |s|
    ensures forall i :: 0 <= i < |s| ==> r[i] == LowerChar(s[i])
  {
    seq(|s|, i requires 0 <= i < |s| => LowerChar(s[i]))
  }

  /** The position of the first newline in `s`, or `|s|` when there is none. */
  function NewlineAt(s: string): (k: nat)
    ensures k <= |s|
    ensures '\n' !in s[..k]
    ensures k < |s| ==> s[k] == '\n'
  {
    if s == [] || s[0] == '\n' then 0
    else
      var k' := NewlineAt(s[1..]);
      assert s[..k' + 1] == [s[0]] + s[1..][..k'];
      k' + 1
  }

  /** The first line of `s`: the text before its first newline. */
  function FirstLine(s: string): string {
    s[..NewlineAt(s)]
  }

  /** The second line of `s`, absent when `s` holds no newline. */
  function SecondLine(s: string): Option<string> {
    var k := NewlineAt(s);
    if k == |s| then None else Some(FirstLine(s[k + 1..]))
  }

  /** `explode("\n", s)`: the pieces of `s` between its newlines. */
  function Explode(s: string): (parts: seq<string>)
    ensures |parts| >= 1
    ensures forall i :: 0 <= i < |parts| ==> '\n' !in parts[i]
    decreases |s|
  {
    var k := NewlineAt(s);
    if k == |s| then [s] else [s[..k]] + Explode(s[k + 1..])
  }

  /** `implode("\n", parts)`: the pieces joined by newlines. */
  function Implode(parts: seq<string>): string {
    if |parts| == 0 then ""
    else if |parts| == 1 then parts[0]
    else parts[0] + "\n" + Implode(parts[1..])
  }

  /** Joining a piece in front of at least one other piece puts a newline between them. */
  lemma ImplodeCons(p: string, parts: seq<string>)
    requires |parts| >= 1
    ensures Implode([p] + parts) == p + "\n" + Implode(parts)
  {
    assert ([p] + parts)[1..] == parts;
  }

  /** Gluing the pieces of `explode` back together gives the original text. */
  lemma {:induction false} ImplodeExplode(s: string)
    ensures Implode(Explode(s)) == s
    decreases |s|
  {
    var k := NewlineAt(s);
    if k < |s| {
      var rest := s[k + 1..];
      ImplodeExplode(rest);
      assert Explode(s) == [s[..k]] + Explode(rest);
      ImplodeCons(s[..k], Explode(rest));
      assert s == s[..k] + [s[k]] + rest;
    }
  }

  /** The first newline of `p + "\n" + rest` is right after `p` when `p` has none. */
  lemma NewlineAfterLine(p: string, rest: string)
    requires '\n' !in p
    ensures NewlineAt(p + "\n" + rest) == |p|
  {
    var s := p + "\n" + rest;
    assert s[..|p|] == p;
    assert forall i :: 0 <= i < |p| ==> s[i] == p[i];
    assert s[|p|] == '\n';
  }

  /** Text without a newline is a single line. */
  lemma NoNewline(s: string)
    requires '\n' !in s
    ensures NewlineAt(s) == |s|
  {
    assert forall i :: 0 <= i < |s| ==> s[i] in s;
  }

  /**
   * The first and second lines of `first + "\n" + second + rest`, when
   * `rest` is empty or starts a further line.
   */
  lemma LinesOf(first: string, second: string, rest: string)
    requires '\n' !in first && '\n' !in second
    requires rest == [] || rest[0] == '\n'
    ensures FirstLine(first + "\n" + second + rest) == first
    ensures SecondLine(first + "\n" + second + rest) == Some(second)
  {
    var raw := first + "\n" + second + rest;
    assert raw == first + "\n" + (second + rest);
    NewlineAfterLine(first, second + rest);
    assert raw[..|first|] == first;
    var tail := raw[|first| + 1..];
    assert tail == second + rest;
    if rest == [] {
      NoNewline(second);
      assert tail == second;
    } else {
      NewlineAfterLine(second, rest[1..]);
      assert tail == second + "\n" + rest[1..];
    }
    assert tail[..|second|] == second;
  }

  /** Exploding newline-free pieces joined by newlines gives the pieces back. */
  lemma {:induction false} ExplodeImplode(parts: seq<string>)
    requires |parts| >= 1
    requires forall i :: 0 <= i < |parts| ==> '\n' !in parts[i]
    ensures Explode(Implode(parts)) == parts
  {
    var p := parts[0];
    if |parts| == 1 {
      NoNewline(p);
    } else {
      var tail := parts[1..];
      assert forall i :: 0 <= i < |tail| ==> tail[i] == parts[i + 1];
      var rest := Implode(tail);
      var s := p + "\n" + rest;
      assert Implode(parts) == s;
      NewlineAfterLine(p, rest);
      assert s[..|p|] == p;
      assert s[|p| + 1..] == rest;
      assert Explode(s) == [p] + Explode(rest);
      ExplodeImplode(tail);
      assert parts == [p] + tail;
    }
  }

  /** The first piece of `explode` is the first line. */
  lemma ExplodeHead(s: string)
    ensures Explode(s)[0] == FirstLine(s)
  {
    var k := NewlineAt(s);
    if k < |s| {
      assert Explode(s) == [s[..k]] + Explode(s[k + 1..]);
    }
  }

  /**
   * The first two pieces of `explode` are the first and second lines, found
   * by scanning for newlines.
   */
  lemma ExplodeLines(s: string)
    ensures Explode(s)[0] == FirstLine(s)
    ensures |Explode(s)| >= 2 <==> SecondLine(s).Some?
    ensures |Explode(s)| >= 2 ==> Explode(s)[1] == SecondLine(s).value
  {
    ExplodeHead(s);
    var k := NewlineAt(s);
    if k == |s| {
      assert Explode(s) == [s];
      assert SecondLine(s) == None;
    } else {
      var rest := s[k + 1..];
      var parts := Explode(s);
      assert parts == [s[..k]] + Explode(rest);
      assert |parts| >= 2;
      assert parts[1] == Explode(rest)[0];
      ExplodeHead(rest);
      assert SecondLine(s) == Some(FirstLine(rest));
    }
  }
}
