/** The names of the numbered-host configuration entries: `DOCKER_HOST_<n>_URL`,
    `DOCKER_HOST_<n>_NAME` and `DOCKER_HOST_<n>_PUBLIC_HOSTNAME`. */
module HostKeys {
  import opened Wrappers

  const HostKeyPrefix := "DOCKER_HOST_"
  const UrlSuffix := "_URL"
  const NameSuffix := "_NAME"
  const PublicHostnameSuffix := "_PUBLIC_HOSTNAME"

  predicate IsDigit(c: char) {
    '0' <= c <= '9'
  }

  /** What `\d+` matches. */
  predicate IsDigitRun(s: string) {
    |s| > 0 && forall i :: 0 <= i < |s| ==> IsDigit(s[i])
  }

  function UrlKey(num: string): string {
    HostKeyPrefix + num + UrlSuffix
  }

  function NameKey(num: string): string {
    HostKeyPrefix + num + NameSuffix
  }

  function PublicHostnameKey(num: string): string {
    HostKeyPrefix + num + PublicHostnameSuffix
  }

  /** `re.match(r"^DOCKER_HOST_(\d+)_URL$", key)` succeeds with group 1 equal
      to `num`. Without MULTILINE, Python's `$` matches at the end of the
      string and also just before a single trailing newline. */
  ghost predicate MatchesUrlKey(key: string, num: string) {
    IsDigitRun(num) && (key == UrlKey(num) || key == UrlKey(num) + "\n")
  }

  function DropTrailingNewline(s: string): string {
    if |s| > 0 && s[|s| - 1] == '\n' then s[..|s| - 1] else s
  }

  /** The host number of a `DOCKER_HOST_<n>_URL` key, or `None` for any other key. */
  function ParseUrlKey(key: string): Option<string> {
    if |key| < |HostKeyPrefix| || key[..|HostKeyPrefix|] != HostKeyPrefix then None
    else
      var body := DropTrailingNewline(key[|HostKeyPrefix|..]);
      if |body| < |UrlSuffix| || body[|body| - |UrlSuffix|..] != UrlSuffix then None
      else
        var num := body[..|body| - |UrlSuffix|];
        if IsDigitRun(num) then Some(num) else None
  }

  /** The parser accepts exactly the keys the regular expression matches,
      and returns the digit run the expression captures. */
  lemma ParseUrlKeyMatches(key: string, num: string)
    ensures ParseUrlKey(key) == Some(num) <==> MatchesUrlKey(key, num)
  {
    var p := |HostKeyPrefix|;
    if MatchesUrlKey(key, num) {
      var core := UrlKey(num);
      assert core == HostKeyPrefix + (num + UrlSuffix);
      assert key[..p] == HostKeyPrefix;
      var rest := key[p..];
      if key == core {
        assert rest == num + UrlSuffix;
        assert rest[|rest| - 1] == 'L';
        assert DropTrailingNewline(rest) == num + UrlSuffix;
      } else {
        assert rest == num + UrlSuffix + "\n";
        assert DropTrailingNewline(rest) == num + UrlSuffix;
      }
      var body := num + UrlSuffix;
      assert body[|body| - |UrlSuffix|..] == UrlSuffix;
      assert body[..|body| - |UrlSuffix|] == num;
    }
    if ParseUrlKey(key) == Some(num) {
      var rest := key[p..];
      var body := DropTrailingNewline(rest);
      assert body == num + UrlSuffix;
      assert key == HostKeyPrefix + rest;
      assert rest == body || rest == body + "\n";
    }
  }

  /** Every numbered key built from a digit run parses back to that run. */
  lemma UrlKeyRoundTrip(num: string)
    requires IsDigitRun(num)
    ensures ParseUrlKey(UrlKey(num)) == Some(num)
  {
    ParseUrlKeyMatches(UrlKey(num), num);
  }

  /** The companion `_NAME` and `_PUBLIC_HOSTNAME` keys of a host, and the
      plain `DOCKER_HOST` key, are never taken for numbered hosts. */
  lemma CompanionKeysAreNotUrlKeys(num: string)
    ensures ParseUrlKey(NameKey(num)) == None
    ensures ParseUrlKey(PublicHostnameKey(num)) == None
    ensures ParseUrlKey("DOCKER_HOST") == None
  {
  }
}
