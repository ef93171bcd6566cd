/**
 * The link routing of assets/js/protocol.js: with protocol navigation on,
 * a link whose href starts with "loqos://" goes to the protocol handler;
 * any other click navigates to the href with its first "loqos://"
 * replaced by "/". The `protocolEnabled` flag starts on and follows the
 * toggle. The `alert` and `console.log` output are left out.
 */
module Protocol {
  import opened Wrappers

  const Scheme: string := "loqos://"

  predicate OccursAt(s: string, pat: string, i: nat)
  {
    i + |pat| <= |s| && s[i..i + |pat|] == pat
  }

  /** The first position at or after `from` where `pat` occurs in `s`. */
  function FindFrom(s: string, pat: string, from: nat): (r: Option<nat>)
    requires from <= |s|
    ensures r.Some? ==> from <= r.value && OccursAt(s, pat, r.value)
    ensures forall i :: from <= i && (r.None? || i < r.value) ==> !OccursAt(s, pat, i)
    decreases |s| - from
  {
    if from + |pat| > |s| then None
    else if s[from..from + |pat|] == pat then Some(from)
    else if from == |s| then None
    else FindFrom(s, pat, from + 1)
  }

  /** `s.replace(pat, rep)` with a string pattern: only the first occurrence is replaced. */
  function ReplaceFirst(s: string, pat: string, rep: string): (r: string)
    ensures FindFrom(s, pat, 0).None? ==> r == s
    ensures FindFrom(s, pat, 0).Some? ==>
      var i := FindFrom(s, pat, 0).value;
      r == s[..i] + rep + s[i + |pat|..]
  {
    match FindFrom(s, pat, 0)
    case None => s
    case Some(i) => s[..i] + rep + s[i + |pat|..]
  }

  /** Where a click leads. */
  datatype Navigation = ProtocolHandler(path: string) | Location(target: string)

  /** The click handler's decision for a link's href. */
  function Route(protocolEnabled: bool, href: string): (n: Navigation)
    ensures n.ProtocolHandler? <==> protocolEnabled && OccursAt(href, Scheme, 0)
    ensures n.ProtocolHandler? ==> n.path == href
    ensures n.Location? ==> n.target == ReplaceFirst(href, Scheme, "/")
  {
    if protocolEnabled && |href| >= |Scheme| && href[..|Scheme|] == Scheme then ProtocolHandler(href)
    else Location(ReplaceFirst(href, Scheme, "/"))
  }

  /** With protocol navigation off, a "loqos://" link navigates to the same path under "/". */
  lemma DisabledRewritesScheme(rest: string)
    ensures Route(false, Scheme + rest) == Location("/" + rest)
  {
    var href := Scheme + rest;
    assert OccursAt(href, Scheme, 0);
    assert href[..0] == [] && href[|Scheme|..] == rest;
  }

  /** An href without "loqos://" anywhere navigates unchanged, whatever the flag. */
  lemma PlainLinkUnchanged(protocolEnabled: bool, href: string)
    requires forall i :: 0 <= i <= |href| ==> !OccursAt(href, Scheme, i)
    ensures Route(protocolEnabled, href) == Location(href)
  {
  }

  /** Replacing the first occurrence removes exactly that one: the text before it has none. */
  lemma ReplaceFirstIsFirst(href: string)
    requires FindFrom(href, Scheme, 0).Some?
    ensures var i := FindFrom(href, Scheme, 0).value;
      ReplaceFirst(href, Scheme, "/")[..i] == href[..i] &&
      forall j :: 0 <= j < i ==> !OccursAt(href, Scheme, j)
  {
  }

  class ProtocolNavigator {
    var protocolEnabled: bool

    /** Protocol navigation starts on. */
    constructor ()
      ensures protocolEnabled
    {
      protocolEnabled := true;
    }

    /** The toggle's `change` handler: the flag follows the switch. */
    method Toggle(checked: bool)
      modifies this
      ensures protocolEnabled == checked
    {
      protocolEnabled := checked;
    }

    /** A link's `click` handler. */
    method Click(href: string) returns (n: Navigation)
      ensures n == Route(protocolEnabled, href)
      ensures n.ProtocolHandler? <==> protocolEnabled && OccursAt(href, Scheme, 0)
    {
      if protocolEnabled && |href| >= |Scheme| && href[..|Scheme|] == Scheme {
        n := ProtocolHandler(href);
      } else {
        n := Location(ReplaceFirst(href, Scheme, "/"));
      }
    }
  }
}
