/**
 * The issue card: the border colour chosen from the severity, the colour of
 * the severity label, the open/closed toggle of the details panel and the
 * HTML snippet that panel shows.
 */
module IssueCard {
  import opened Wrappers

  /** The colour families the card draws with. */
  datatype Hue = Red | Orange | Blue | Gray

  /**
   * `toLowerCase` on one character. Only ASCII letters are folded: for the
   * four severity words the card compares against this is exact, since no
   * other character lower-cases to a string made only of their letters.
   */
  function LowerChar(ch: char): char
  {
    if 'A' <= ch <= 'Z' then (ch as int - 'A' as int + 'a' as int) as char else ch
  }

  function Lower(s: string): (r: string)
    ensures |r| == |s|
    ensures forall i :: 0 <= i < |s| ==> r[i] == LowerChar(s[i])
  {
    if s == [] then [] else [LowerChar(s[0])] + Lower(s[1..])
  }

  /** A string is in lower case when lower-casing leaves it as it is. */
  predicate IsLowerCase(s: string)
  {
    Lower(s) == s
  }

  /** Lower-casing twice is lower-casing once. */
  lemma LowerIsIdempotent(s: string)
    ensures IsLowerCase(Lower(s))
  {
  }

  /** The `switch` of `getSeverityColor`, taken on the lower-cased severity. */
  function BorderHue(severity: string): Hue
  {
    var key := Lower(severity);
    if key == "critical" || key == "serious" then Red
    else if key == "moderate" then Orange
    else if key == "minor" then Blue
    else Gray
  }

  /** The class strings `getSeverityColor` returns for each bucket. */
  function BorderClasses(h: Hue): string
  {
    match h
    case Red => "border-red-500 bg-red-50"
    case Orange => "border-orange-500 bg-orange-50"
    case Blue => "border-blue-500 bg-blue-50"
    case Gray => "border-gray-300 bg-gray-50"
  }

  /** `getSeverityColor(severity)`. */
  function SeverityColor(severity: string): string
  {
    BorderClasses(BorderHue(severity))
  }

  /** The four buckets have four different class strings. */
  lemma BorderClassesDistinct(h1: Hue, h2: Hue)
    ensures BorderClasses(h1) == BorderClasses(h2) <==> h1 == h2
  {
    if h1 != h2 {
      var s1, s2 := BorderClasses(h1), BorderClasses(h2);
      assert s1[7] != s2[7];
    }
  }

  /** The border depends on the severity only through its lower-cased form. */
  lemma SeverityColorIgnoresCase(a: string, b: string)
    ensures SeverityColor(a) == SeverityColor(Lower(a))
    ensures Lower(a) == Lower(b) ==> SeverityColor(a) == SeverityColor(b)
  {
    LowerIsIdempotent(a);
  }

  lemma CriticalSpellings()
    ensures SeverityColor("Critical") == SeverityColor("CRITICAL") == SeverityColor("critical")
    ensures SeverityColor("critical") == "border-red-500 bg-red-50"
  {
    LowerOfLowerCritical();
    LowerOfCapitalCritical();
    LowerOfUpperCritical();
  }

  lemma LowerOfLowerCritical()
    ensures Lower("critical") == "critical"
  {
    LowerFrom("critical", "critical");
  }

  lemma LowerOfCapitalCritical()
    ensures Lower("Critical") == "critical"
  {
    LowerFrom("Critical", "critical");
  }

  lemma LowerOfUpperCritical()
    ensures Lower("CRITICAL") == "critical"
  {
    LowerFrom("CRITICAL", "critical");
  }

  lemma LowerFrom(s: string, t: string)
    requires |s| == |t|
    requires forall i :: 0 <= i < |s| ==> LowerChar(s[i]) == t[i]
    ensures Lower(s) == t
  {
  }

  /** The table of the `switch`: which lower-cased severities land in which bucket. */
  lemma BorderTable(severity: string)
    ensures BorderHue(severity) == Red <==> Lower(severity) == "critical" || Lower(severity) == "serious"
    ensures BorderHue(severity) == Orange <==> Lower(severity) == "moderate"
    ensures BorderHue(severity) == Blue <==> Lower(severity) == "minor"
    ensures BorderHue(severity) == Gray <==> Lower(severity) !in ["critical", "serious", "moderate", "minor"]
  {
  }

  /** "serious" shares the red bucket with "critical", in any capitalisation. */
  lemma SeriousIsCritical(severity: string)
    requires Lower(severity) == "serious"
    ensures SeverityColor(severity) == SeverityColor("critical")
  {
    LowerOfLowerCritical();
  }

  /** The exact-match ternary that colours the "Severity:" label. */
  function LabelHue(severity: string): (h: Hue)
    ensures h != Gray
  {
    if severity == "critical" then Red
    else if severity == "serious" then Red
    else if severity == "moderate" then Orange
    else Blue
  }

  /** The text class of each label colour. */
  function LabelClasses(h: Hue): string
    requires h != Gray
  {
    match h
    case Red => "text-red-600"
    case Orange => "text-orange-600"
    case Blue => "text-blue-600"
  }

  /** The label's text class for a severity. */
  function LabelColor(severity: string): string
  {
    LabelClasses(LabelHue(severity))
  }

  /**
   * On lower-case input the label agrees with the border, except that a
   * severity without a bucket of its own is labelled blue, not gray.
   */
  lemma LabelAgreesOnLowerCase(severity: string)
    requires IsLowerCase(severity)
    ensures LabelHue(severity) == if BorderHue(severity) == Gray then Blue else BorderHue(severity)
  {
  }

  /** Any severity with an upper-case letter gets the blue label, whatever its border. */
  lemma LabelIsCaseSensitive(severity: string)
    requires !IsLowerCase(severity)
    ensures LabelHue(severity) == Blue
  {
    if severity == "critical" || severity == "serious" || severity == "moderate" {
      NoCapitalIsLowerCase(severity);
    }
  }

  /** A string without an upper-case ASCII letter is in lower case. */
  lemma NoCapitalIsLowerCase(s: string)
    requires forall i :: 0 <= i < |s| ==> !('A' <= s[i] <= 'Z')
    ensures IsLowerCase(s)
  {
  }

  /** "Critical" has a red border and a blue label. */
  lemma MixedCaseDisagrees()
    ensures BorderHue("Critical") == Red && LabelHue("Critical") == Blue
  {
    LowerOfCapitalCritical();
  }

  /** The details panel starts closed. */
  const InitiallyOpen := false

  /** The header's click handler: `setIsOpen(!isOpen)`. */
  function Click(isOpen: bool): (next: bool)
    ensures next != isOpen
  {
    !isOpen
  }

  lemma ClickTwiceRestores(isOpen: bool)
    ensures Click(Click(isOpen)) == isOpen
  {
  }

  /** One offending HTML node of an issue. */
  datatype Node = Node(html: string)

  /**
   * The HTML shown in the card: nothing while the panel is closed, nothing
   * when `nodes` is missing or empty, otherwise the first node's `html`.
   */
  function ShownHtml(isOpen: bool, nodes: Option<seq<Node>>): (shown: Option<string>)
    ensures shown.Some? <==> isOpen && nodes.Some? && |nodes.value| > 0
    ensures shown.Some? ==> shown.value == nodes.value[0].html
  {
    if isOpen && nodes.Some? && |nodes.value| > 0 then Some(nodes.value[0].html) else None
  }

  /** A fresh card shows no snippet; one click shows the first node, if there is one. */
  lemma FreshCardShowsNothing(nodes: Option<seq<Node>>)
    ensures ShownHtml(InitiallyOpen, nodes) == None
    ensures ShownHtml(Click(InitiallyOpen), nodes).Some? <==> nodes.Some? && |nodes.value| > 0
  {
  }

  /** Only the first node is ever shown: the rest do not affect the card. */
  lemma ShownHtmlOnlyFirstNode(isOpen: bool, a: seq<Node>, b: seq<Node>)
    requires |a| > 0 && |b| > 0 && a[0] == b[0]
    ensures ShownHtml(isOpen, Some(a)) == ShownHtml(isOpen, Some(b))
  {
  }
}
