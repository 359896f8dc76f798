/** The few facts about generated markup that the generators share: an element is
    its start tag, its content unchanged, and its end tag. Template literals insert
    text without escaping, so content is embedded verbatim. */
module Html {
  /** `a` occurs in `b` as a contiguous piece. */
  predicate IsInfix(a: string, b: string) {
    exists i, j | 0 <= i <= j <= |b| :: b[i..j] == a
  }

  /** `<tag class="cls">inner</tag>`. */
  function Elem(tag: string, cls: string, inner: string): string {
    "<" + tag + " class=\"" + cls + "\">" + inner + "</" + tag + ">"
  }

  /** `<tag>inner</tag>`. */
  function Plain(tag: string, inner: string): string {
    "<" + tag + ">" + inner + "</" + tag + ">"
  }

  lemma InfixOfConcat(a: string, b: string, c: string)
    ensures IsInfix(b, a + b + c)
  {
    assert (a + b + c)[|a|..|a| + |b|] == b;
  }

  lemma InfixOfPrefix(a: string, b: string)
    ensures IsInfix(a, a + b)
  {
    assert (a + b)[0..|a|] == a;
  }

  lemma InfixOfSuffix(a: string, b: string)
    ensures IsInfix(b, a + b)
  {
    assert (a + b)[|a|..|a| + |b|] == b;
  }

  /** An infix of an infix is an infix. */
  lemma InfixTransitive(a: string, b: string, c: string)
    requires IsInfix(a, b) && IsInfix(b, c)
    ensures IsInfix(a, c)
  {
    var i, j :| 0 <= i <= j <= |b| && b[i..j] == a;
    var k, l :| 0 <= k <= l <= |c| && c[k..l] == b;
    assert |b| == l - k;
    assert forall m :: 0 <= m < j - i ==> a[m] == b[i + m] == c[k + i + m];
    assert c[k + i..k + j] == a;
  }

  /** The content of an element appears verbatim in it. */
  lemma ElemEmbeds(tag: string, cls: string, inner: string)
    ensures IsInfix(inner, Elem(tag, cls, inner))
  {
    var open := "<" + tag + " class=\"" + cls + "\">";
    assert Elem(tag, cls, inner) == open + inner + ("</" + tag + ">");
    InfixOfConcat(open, inner, "</" + tag + ">");
  }

  lemma PlainEmbeds(tag: string, inner: string)
    ensures IsInfix(inner, Plain(tag, inner))
  {
    assert Plain(tag, inner) == "<" + tag + ">" + inner + ("</" + tag + ">");
    InfixOfConcat("<" + tag + ">", inner, "</" + tag + ">");
  }

  /** `text` followed by `item(1)`, ..., `item(k)`: what a loop `for (i = 1; i <= k; i++)
      text += item(i)` builds. */
  function AppendNumbered(text: string, item: nat -> string, k: nat): string {
    if k == 0 then text else AppendNumbered(text, item, k - 1) + item(k)
  }

  /** How many times `for (let i = 1; i <= limit; i++)` runs. */
  function StepCount(limit: int): (k: nat)
    ensures limit >= 1 ==> k == limit
    ensures limit < 1 ==> k == 0
  {
    if limit < 1 then 0 else limit
  }

  /** The loop `for (let i = 1; i <= limit; i++) content += item(i)`. */
  method AppendLoop(content0: string, item: nat -> string, limit: int) returns (content: string)
    ensures content == AppendNumbered(content0, item, StepCount(limit))
  {
    content := content0;
    var i := 1;
    while i <= limit
      invariant 1 <= i <= StepCount(limit) + 1
      invariant content == AppendNumbered(content0, item, i - 1)
    {
      content := content + item(i);
      i := i + 1;
    }
  }

  /** Each item from 1 to `k` appears, whole, in the text. */
  lemma {:induction false} AppendNumberedContains(text: string, item: nat -> string, k: nat, j: nat)
    requires 1 <= j <= k
    ensures IsInfix(item(j), AppendNumbered(text, item, k))
  {
    var before := AppendNumbered(text, item, k - 1);
    if j == k {
      InfixOfSuffix(before, item(k));
    } else {
      AppendNumberedContains(text, item, k - 1, j);
      InfixOfPrefix(before, item(k));
      InfixTransitive(item(j), before, before + item(k));
    }
  }

  /** The text before the items is kept as it is. */
  lemma {:induction false} AppendNumberedKeepsText(text: string, item: nat -> string, k: nat)
    ensures |AppendNumbered(text, item, k)| >= |text|
    ensures AppendNumbered(text, item, k)[..|text|] == text
  {
    if k > 0 {
      AppendNumberedKeepsText(text, item, k - 1);
      var before := AppendNumbered(text, item, k - 1);
      assert (before + item(k))[..|text|] == before[..|text|];
    }
  }
}
