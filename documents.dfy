/**
 * The document store's side of the model: a stored document is a record plus
 * the identifier the store generated for it. Identifiers come from a counter
 * and are rendered as decimal strings; parsing one back recovers the counter
 * value, which is what makes a newly generated identifier distinct from every
 * identifier already issued.
 */
module Documents {
  import opened Common

  datatype Doc<T> = Doc(id: string, body: T)

  /** The records of a collection, in storage order. */
  function Bodies<T>(docs: seq<Doc<T>>): (r: seq<T>)
    ensures |r| == |docs|
    ensures forall i :: 0 <= i < |docs| ==> r[i] == docs[i].body
  {
    seq(|docs|, i requires 0 <= i < |docs| => docs[i].body)
  }

  function DigitChar(d: nat): (c: char)
    requires d < 10
  {
    ('0' as int + d) as char
  }

  predicate IsDigit(c: char) {
    '0' <= c <= '9'
  }

  /** The identifier generated from counter value `n`: its decimal rendering. */
  function IdOf(n: nat): (s: string)
    ensures |s| > 0
    ensures forall i :: 0 <= i < |s| ==> IsDigit(s[i])
  {
    if n < 10 then [DigitChar(n)] else IdOf(n / 10) + [DigitChar(n % 10)]
  }

  function DigitValue(c: char): nat
    requires IsDigit(c)
  {
    c as int - '0' as int
  }

  function DigitsValue(s: string): nat
    requires forall i :: 0 <= i < |s| ==> IsDigit(s[i])
  {
    if s == [] then 0 else DigitsValue(s[..|s| - 1]) * 10 + DigitValue(s[|s| - 1])
  }

  /** The counter value an identifier was generated from, if it is one. */
  function ParseId(s: string): Option<nat> {
    if s != [] && forall i :: 0 <= i < |s| ==> IsDigit(s[i]) then Some(DigitsValue(s)) else None
  }

  lemma {:induction false} ParseIdOf(n: nat)
    ensures ParseId(IdOf(n)) == Some(n)
  {
    var s := IdOf(n);
    if n < 10 {
      assert s == [DigitChar(n)];
      assert s[..|s| - 1] == [];
      assert DigitValue(s[0]) == n;
      assert DigitsValue(s) == n;
    } else {
      ParseIdOf(n / 10);
      assert s[..|s| - 1] == IdOf(n / 10);
      assert DigitValue(s[|s| - 1]) == n % 10;
    }
  }

  /**
   * Every identifier in the collection was generated from a counter value
   * below `next`, and the values increase along the collection.
   */
  ghost predicate WellNumbered<T>(docs: seq<Doc<T>>, next: nat) {
    && (forall i :: 0 <= i < |docs| ==> ParseId(docs[i].id).Some? && ParseId(docs[i].id).value < next)
    && (forall i, j :: 0 <= i < j < |docs| ==> ParseId(docs[i].id).value < ParseId(docs[j].id).value)
  }

  /** Appending a document under the next counter value keeps the collection well numbered. */
  lemma WellNumberedAppend<T>(docs: seq<Doc<T>>, next: nat, x: T)
    requires WellNumbered(docs, next)
    ensures WellNumbered(docs + [Doc(IdOf(next), x)], next + 1)
  {
    ParseIdOf(next);
  }

  /** The next identifier is not held by any document of a well-numbered collection. */
  lemma FreshId<T>(docs: seq<Doc<T>>, next: nat)
    requires WellNumbered(docs, next)
    ensures forall i :: 0 <= i < |docs| ==> docs[i].id != IdOf(next)
  {
    ParseIdOf(next);
  }

  /** Documents of a well-numbered collection have pairwise distinct identifiers. */
  lemma WellNumberedDistinct<T>(docs: seq<Doc<T>>, next: nat)
    requires WellNumbered(docs, next)
    ensures forall i, j :: 0 <= i < j < |docs| ==> docs[i].id != docs[j].id
  {
  }
}
