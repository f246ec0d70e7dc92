/** The account-usage summary shown on the overview tab. */
module Usage {

  /** What the overview tab displays; every field is already a display string. */
  datatype UsageSummary = UsageSummary(used: string, remaining: string, limit: string, resetsAt: string)

  const NotAvailable: string := "N/A"
  const UnknownReset: string := "Unknown"

  /**
   * Builds the summary from the decoded usage object. A missing credit field
   * reads "N/A"; a missing or empty `resets_at` reads "Unknown", and a present
   * one is rendered by `toLocal`, which stands for `fromisoformat` on the text
   * with "Z" removed, then `astimezone()` and `strftime`. The parsed value
   * carries no offset, so `astimezone()` takes it as host-local time already
   * and does not shift it.
   */
  function Summarize(usage: map<string, string>, toLocal: string -> string): (s: UsageSummary)
    ensures s.used == (if "credits_used" in usage then usage["credits_used"] else "N/A")
    ensures s.remaining == (if "credits_remaining" in usage then usage["credits_remaining"] else "N/A")
    ensures s.limit == (if "credits_limit" in usage then usage["credits_limit"] else "N/A")
    ensures "resets_at" !in usage || usage["resets_at"] == "" ==> s.resetsAt == "Unknown"
    ensures "resets_at" in usage && usage["resets_at"] != "" ==> s.resetsAt == toLocal(usage["resets_at"])
  {
    // each lookup is `usage.get(key, default)`
    var remaining := if "credits_remaining" in usage then usage["credits_remaining"] else NotAvailable;
    var limit := if "credits_limit" in usage then usage["credits_limit"] else NotAvailable;
    var used := if "credits_used" in usage then usage["credits_used"] else NotAvailable;
    var resets := if "resets_at" in usage then usage["resets_at"] else "";
    var resetStr := if resets != "" then toLocal(resets) else UnknownReset;
    UsageSummary(used, remaining, limit, resetStr)
  }

  /** The four keys the summary reads. */
  const UsageKeys: set<string> := {"credits_used", "credits_remaining", "credits_limit", "resets_at"}

  /** Any other entry of the usage object leaves the summary unchanged. */
  lemma OnlyUsageKeysMatter(a: map<string, string>, b: map<string, string>, toLocal: string -> string)
    requires forall k :: k in UsageKeys ==> (k in a <==> k in b)
    requires forall k :: k in UsageKeys && k in a ==> a[k] == b[k]
    ensures Summarize(a, toLocal) == Summarize(b, toLocal)
  {
  }

  /** An empty usage object gives the all-default summary. */
  lemma EmptyUsage(toLocal: string -> string)
    ensures Summarize(map[], toLocal) == UsageSummary("N/A", "N/A", "N/A", "Unknown")
  {
  }
}
