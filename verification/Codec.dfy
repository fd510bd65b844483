/** Streams of records: printing a list of values one after another, and parsing them back one by one.
    The message stream of a connection and the piece log on disk are both of this kind. */
module Codec {
  import opened Types

  datatype Parsed<+T> = Parsed(value: T, rest: seq<byte>) | NoParse

  datatype Stream<+T> = Stream(values: seq<T>, tail: seq<byte>)

  function PrintAll<T>(encode: T -> seq<byte>, xs: seq<T>): seq<byte> {
    if xs == [] then [] else encode(xs[0]) + PrintAll(encode, xs[1..])
  }

  /** The values at the front of `bytes`, up to where parsing stops. */
  function ParseAll<T>(parse: seq<byte> -> Parsed<T>, bytes: seq<byte>): Stream<T>
    decreases |bytes|
  {
    var r := parse(bytes);
    if r.Parsed? && |r.rest| < |bytes| then
      var later := ParseAll(parse, r.rest);
      Stream([r.value] + later.values, later.tail)
    else Stream([], bytes)
  }

  /** Parsing undoes printing, whatever follows. */
  ghost predicate ParsesPrinted<T(!new)>(encode: T -> seq<byte>, parse: seq<byte> -> Parsed<T>, valid: T -> bool) {
    && (forall x :: valid(x) ==> 0 < |encode(x)|)
    && (forall x, rest :: valid(x) ==> parse(encode(x) + rest) == Parsed(x, rest))
  }

  /** Printing undoes parsing. */
  ghost predicate PrintsParsed<T(!new)>(encode: T -> seq<byte>, parse: seq<byte> -> Parsed<T>, valid: T -> bool) {
    forall b :: parse(b).Parsed? ==>
      var r := parse(b);
      valid(r.value) && |r.rest| < |b| && b == encode(r.value) + r.rest
  }

  lemma ParseAllStep<T>(parse: seq<byte> -> Parsed<T>, bytes: seq<byte>)
    requires parse(bytes).Parsed? && |parse(bytes).rest| < |bytes|
    ensures var later := ParseAll(parse, parse(bytes).rest);
      ParseAll(parse, bytes) == Stream([parse(bytes).value] + later.values, later.tail)
  {
  }

  lemma Assoc<T>(a: seq<T>, b: seq<T>, c: seq<T>)
    ensures (a + b) + c == a + (b + c)
  {
  }

  lemma {:induction false} PrintAllConcat<T>(encode: T -> seq<byte>, a: seq<T>, b: seq<T>)
    ensures PrintAll(encode, a + b) == PrintAll(encode, a) + PrintAll(encode, b)
  {
    if a == [] {
      assert a + b == b;
    } else {
      PrintAllConcat(encode, a[1..], b);
      assert (a + b)[1..] == a[1..] + b;
      Assoc(encode(a[0]), PrintAll(encode, a[1..]), PrintAll(encode, b));
    }
  }

  lemma {:induction false} ParsePrintedPrefix<T(!new)>(encode: T -> seq<byte>, parse: seq<byte> -> Parsed<T>,
                                                       valid: T -> bool, xs: seq<T>, more: seq<byte>)
    requires ParsesPrinted(encode, parse, valid)
    requires forall x :: x in xs ==> valid(x)
    ensures ParseAll(parse, PrintAll(encode, xs) + more)
      == Stream(xs + ParseAll(parse, more).values, ParseAll(parse, more).tail)
  {
    if xs == [] {
      assert PrintAll(encode, xs) + more == more;
      assert xs + ParseAll(parse, more).values == ParseAll(parse, more).values;
    } else {
      var later := PrintAll(encode, xs[1..]);
      Assoc(encode(xs[0]), later, more);
      assert valid(xs[0]);
      assert parse(encode(xs[0]) + (later + more)) == Parsed(xs[0], later + more);
      ParsePrintedPrefix(encode, parse, valid, xs[1..], more);
      assert xs + ParseAll(parse, more).values == [xs[0]] + (xs[1..] + ParseAll(parse, more).values);
    }
  }

  lemma {:induction false} PrintParsed<T(!new)>(encode: T -> seq<byte>, parse: seq<byte> -> Parsed<T>, valid: T -> bool,
                                                bytes: seq<byte>)
    requires PrintsParsed(encode, parse, valid)
    ensures var s := ParseAll(parse, bytes);
      && (forall x :: x in s.values ==> valid(x))
      && bytes == PrintAll(encode, s.values) + s.tail
    decreases |bytes|
  {
    var r := parse(bytes);
    if r.Parsed? {
      PrintParsed(encode, parse, valid, r.rest);
      var later := ParseAll(parse, r.rest);
      assert ([r.value] + later.values)[1..] == later.values;
      Assoc(encode(r.value), PrintAll(encode, later.values), later.tail);
    }
  }

  /** The stream holds exactly `xs` if and only if it is their printed form. */
  lemma StreamIff<T(!new)>(encode: T -> seq<byte>, parse: seq<byte> -> Parsed<T>, valid: T -> bool,
                           bytes: seq<byte>, xs: seq<T>)
    requires ParsesPrinted(encode, parse, valid) && PrintsParsed(encode, parse, valid)
    requires parse([]).NoParse?
    ensures ParseAll(parse, bytes) == Stream(xs, [])
      <==> (forall x :: x in xs ==> valid(x)) && bytes == PrintAll(encode, xs)
  {
    PrintParsed(encode, parse, valid, bytes);
    if (forall x :: x in xs ==> valid(x)) && bytes == PrintAll(encode, xs) {
      ParsePrintedPrefix(encode, parse, valid, xs, []);
      assert bytes + [] == bytes;
      assert xs + [] == xs;
    }
  }
}
