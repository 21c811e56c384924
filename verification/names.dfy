/** Names the filter and the resolver talk about. A domain is its sequence
    of labels, most specific first (`www.example.com` is
    `["www", "example", "com"]`); its parents are its strict, non-empty label
    suffixes (`example.com`, then `com`), the names `iter_parent_domains`
    walks through. IP addresses and subnets are opaque tokens. */
module Names {
  import Text

  type Label = string
  type Domain = seq<Label>

  /** `p` is a strict ancestor of `d`. */
  predicate ParentOf(p: Domain, d: Domain) {
    0 < |p| < |d| && d[|d| - |p|..] == p
  }

  /** The text a domain derefs to: its labels joined with dots. */
  function DomainText(d: Domain): string {
    Text.Join(d, '.')
  }

  /** An IP address, printed by `to_string` as its `text`. */
  datatype IpAddr = IpAddr(text: string)

  /** An IP subnet (`ipnet::IpNet`); containment is left to the caller. */
  datatype IpNet = IpNet(text: string)

  /** The parents of `d` are exactly the suffixes after dropping the first
      one or more labels, leaving at least one. */
  lemma ParentsAreDroppedPrefixes(p: Domain, d: Domain)
    ensures ParentOf(p, d) <==> exists i :: 1 <= i < |d| && d[i..] == p
  {
  }
}
