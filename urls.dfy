/**
 * The three request URLs: a base URL followed by '/'-separated segments,
 * each segment passed through the query escaper.
 */
module Urls {
  import opened Paths

  /** `url.QueryEscape` escapes '/' (as %2F), so no escaped segment holds one. */
  ghost predicate EscapesSlash(escape: string -> string) {
    forall s :: NoSlash(escape(s))
  }

  /** `url.QueryEscape` maps distinct strings to distinct strings. */
  ghost predicate Injective(escape: string -> string) {
    forall a, b :: escape(a) == escape(b) ==> a == b
  }

  /** The metadata URL built by `fetchInfo`: `<api><cmd>/<platform>.json`. */
  function InfoURL(apiURL: string, cmdName: string, platform: string, escape: string -> string): (url: string)
    ensures |url| >= |apiURL| + 5 && url[..|apiURL|] == apiURL && url[|url| - 5..] == ".json"
    ensures NoSlash(escape(cmdName)) && NoSlash(escape(platform)) ==>
              SplitPath(url[|apiURL|..]) == [escape(cmdName), escape(platform) + ".json"]
  {
    var url := apiURL + escape(cmdName) + "/" + escape(platform) + ".json";
    if NoSlash(escape(cmdName)) && NoSlash(escape(platform)) then
      assert NoSlash(escape(platform) + ".json");
      assert url[|apiURL|..] == JoinPath([escape(cmdName), escape(platform) + ".json"]);
      SplitJoin([escape(cmdName), escape(platform) + ".json"]);
      url
    else url
  }

  /**
   * The patch URL built by `fetchAndApplyPatch`:
   * `<diff><cmd>/<current version>/<new version>/<platform>`.
   */
  function PatchURL(diffURL: string, cmdName: string, currentVersion: string, infoVersion: string,
                    platform: string, escape: string -> string): (url: string)
    ensures |url| >= |diffURL| && url[..|diffURL|] == diffURL
    ensures NoSlash(escape(cmdName)) && NoSlash(escape(currentVersion)) &&
            NoSlash(escape(infoVersion)) && NoSlash(escape(platform)) ==>
              SplitPath(url[|diffURL|..]) ==
                [escape(cmdName), escape(currentVersion), escape(infoVersion), escape(platform)]
  {
    var segs := [escape(cmdName), escape(currentVersion), escape(infoVersion), escape(platform)];
    var url := diffURL + escape(cmdName) + "/" + escape(currentVersion) + "/" +
               escape(infoVersion) + "/" + escape(platform);
    if forall i :: 0 <= i < 4 ==> NoSlash(segs[i]) then
      assert JoinPath(segs[3..]) == segs[3] by { assert segs[3..] == [segs[3]]; }
      assert JoinPath(segs[2..]) == segs[2] + "/" + segs[3] by { assert segs[2..][1..] == segs[3..]; }
      assert JoinPath(segs[1..]) == segs[1] + "/" + segs[2] + "/" + segs[3] by { assert segs[1..][1..] == segs[2..]; }
      assert url[|diffURL|..] == JoinPath(segs);
      SplitJoin(segs);
      url
    else url
  }

  /** The full-binary URL built by `fetchBin`: `<bin><cmd>/<new version>/<platform>.gz`. */
  function BinURL(binURL: string, cmdName: string, infoVersion: string, platform: string,
                  escape: string -> string): (url: string)
    ensures |url| >= |binURL| + 3 && url[..|binURL|] == binURL && url[|url| - 3..] == ".gz"
    ensures NoSlash(escape(cmdName)) && NoSlash(escape(infoVersion)) && NoSlash(escape(platform)) ==>
              SplitPath(url[|binURL|..]) == [escape(cmdName), escape(infoVersion), escape(platform) + ".gz"]
  {
    var segs := [escape(cmdName), escape(infoVersion), escape(platform) + ".gz"];
    var url := binURL + escape(cmdName) + "/" + escape(infoVersion) + "/" + escape(platform) + ".gz";
    if NoSlash(escape(cmdName)) && NoSlash(escape(infoVersion)) && NoSlash(escape(platform)) then
      assert NoSlash(escape(platform) + ".gz");
      assert JoinPath(segs[2..]) == segs[2] by { assert segs[2..] == [segs[2]]; }
      assert JoinPath(segs[1..]) == segs[1] + "/" + segs[2] by { assert segs[1..][1..] == segs[2..]; }
      assert url[|binURL|..] == JoinPath(segs);
      SplitJoin(segs);
      url
    else url
  }

  /**
   * With an escaper like `url.QueryEscape`, equal metadata URLs over one
   * base name the same command and the same platform.
   */
  lemma InfoURLDeterminesTarget(apiURL: string, escape: string -> string,
                                cmd1: string, plat1: string, cmd2: string, plat2: string)
    requires EscapesSlash(escape) && Injective(escape)
    requires InfoURL(apiURL, cmd1, plat1, escape) == InfoURL(apiURL, cmd2, plat2, escape)
    ensures cmd1 == cmd2 && plat1 == plat2
  {
    var u1 := InfoURL(apiURL, cmd1, plat1, escape);
    var u2 := InfoURL(apiURL, cmd2, plat2, escape);
    assert NoSlash(escape(cmd1)) && NoSlash(escape(plat1));
    assert NoSlash(escape(cmd2)) && NoSlash(escape(plat2));
    assert SplitPath(u1[|apiURL|..]) == SplitPath(u2[|apiURL|..]);
    var e1, e2 := escape(plat1) + ".json", escape(plat2) + ".json";
    assert e1[..|e1| - 5] == escape(plat1) && e2[..|e2| - 5] == escape(plat2);
  }

  /**
   * With an escaper like `url.QueryEscape`, equal patch URLs over one base
   * name the same command, the same pair of versions and the same platform,
   * in that order: a patch is never fetched for another transition.
   */
  lemma PatchURLDeterminesTransition(diffURL: string, escape: string -> string,
                                     cmd1: string, from1: string, to1: string, plat1: string,
                                     cmd2: string, from2: string, to2: string, plat2: string)
    requires EscapesSlash(escape) && Injective(escape)
    requires PatchURL(diffURL, cmd1, from1, to1, plat1, escape) == PatchURL(diffURL, cmd2, from2, to2, plat2, escape)
    ensures cmd1 == cmd2 && from1 == from2 && to1 == to2 && plat1 == plat2
  {
  }

  /** Likewise a full-binary URL names exactly one command, version and platform. */
  lemma BinURLDeterminesVersion(binURL: string, escape: string -> string,
                                cmd1: string, ver1: string, plat1: string,
                                cmd2: string, ver2: string, plat2: string)
    requires EscapesSlash(escape) && Injective(escape)
    requires BinURL(binURL, cmd1, ver1, plat1, escape) == BinURL(binURL, cmd2, ver2, plat2, escape)
    ensures cmd1 == cmd2 && ver1 == ver2 && plat1 == plat2
  {
    var u1 := BinURL(binURL, cmd1, ver1, plat1, escape);
    var u2 := BinURL(binURL, cmd2, ver2, plat2, escape);
    assert NoSlash(escape(cmd1)) && NoSlash(escape(ver1)) && NoSlash(escape(plat1));
    assert NoSlash(escape(cmd2)) && NoSlash(escape(ver2)) && NoSlash(escape(plat2));
    assert SplitPath(u1[|binURL|..]) == SplitPath(u2[|binURL|..]);
    var e1, e2 := escape(plat1) + ".gz", escape(plat2) + ".gz";
    assert e1[..|e1| - 3] == escape(plat1) && e2[..|e2| - 3] == escape(plat2);
  }
}
