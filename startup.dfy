/**
 * What the program decides at start-up before any listener runs: print the
 * version banner and exit, or derive the suffix list and the list of local
 * transports from the comma-separated flags and serve.
 */
module Startup {
  import opened GoStrings
  import opened Dns
  import opened Filter
  import opened Relay

  /** The parsed command-line flags the core reads. */
  datatype Flags = Flags(
    domain: string,
    upstream: string,
    transport: string,
    upstreamTransport: string,
    timeout: int64,
    socks: bool,
    versionFlag: bool)

  /** Either the banner to print before exiting, or the configuration to serve with. */
  datatype Action = ShowVersion(banner: string) | Serve(config: Config, transports: seq<string>)

  const BannerPrefix: string := "dnsfwd "

  /**
   * The version banner: "dnsfwd " followed by the version embedded at build
   * time, or by "UNTAGGED LOCAL BUILD" when none was embedded.
   */
  function Banner(version: string): string {
    if version == "" then BannerPrefix + "UNTAGGED LOCAL BUILD" else BannerPrefix + version
  }

  /** The start-up decision, from the flags and the embedded version. */
  function Start(flags: Flags, version: string): Action {
    if flags.versionFlag then ShowVersion(Banner(version))
    else
      var cfg := Config(Split(flags.domain, ','), flags.upstream, flags.upstreamTransport,
                        flags.socks, flags.timeout);
      Serve(cfg, Split(flags.transport, ','))
  }

  /**
   * Every banner starts with "dnsfwd "; an untagged build shows the marker,
   * and from a tagged build's banner the version can be read back.
   */
  lemma BannerShowsVersion(version: string)
    ensures |Banner(version)| >= |BannerPrefix| && Banner(version)[..|BannerPrefix|] == BannerPrefix
    ensures version == "" ==> Banner(version) == "dnsfwd UNTAGGED LOCAL BUILD"
    ensures version != "" ==> Banner(version)[|BannerPrefix|..] == version
  {
  }

  /** A build tagged "UNTAGGED LOCAL BUILD" prints the same banner as an untagged one. */
  lemma BannerCollision()
    ensures Banner("UNTAGGED LOCAL BUILD") == Banner("")
  {
  }

  /** With the version flag set nothing is served, whatever the other flags say. */
  lemma VersionFlagServesNothing(flags: Flags, version: string)
    requires flags.versionFlag
    ensures Start(flags, version) == ShowVersion(Banner(version))
  {
  }

  /**
   * The suffix list the handler sees is never empty, so the handler's
   * emptiness guard always holds; the list rejoined with commas is the flag,
   * and no suffix contains a comma.
   */
  lemma SuffixListFromFlag(flags: Flags, version: string)
    requires !flags.versionFlag
    ensures var cfg := Start(flags, version).config;
      |cfg.suffixes| >= 1 &&
      Join(cfg.suffixes, ',') == flags.domain &&
      forall i :: 0 <= i < |cfg.suffixes| ==> ',' !in cfg.suffixes[i]
  {
    JoinSplit(flags.domain, ',');
  }

  /**
   * With an empty domain flag the suffix list is [""], and a query is then
   * admitted exactly when every question name ends in ".".
   */
  lemma EmptyDomainFlag(flags: Flags, version: string, questions: seq<Question>)
    requires !flags.versionFlag && flags.domain == ""
    ensures Start(flags, version).config.suffixes == [""]
    ensures Admits(questions, Start(flags, version).config.suffixes) <==>
      forall i :: 0 <= i < |questions| ==>
        |questions[i].name| > 0 && questions[i].name[|questions[i].name| - 1] == '.'
  {
    SplitEmpty(',');
    forall i | 0 <= i < |questions| {
      EmptySuffixAdmitsFqdn(questions[i].name);
    }
  }
}
