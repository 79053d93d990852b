/** The names users give to processes of a folder, and the folder that the
    dashboard reads back from the host of a request. */
module Names {
  import opened Text
  import Discovered
  import HttpConfig
  import Registry

  // ---- Labels -----------------------------------------------------------------------------

  // The grammar of section 2.3.1 of RFC 1035, where section 2.1 of RFC 1123 lets a
  // label start with a digit, restricted to lower case:
  //   label = let-dig [ [ ldh-str ] let-dig ], ldh-str = let-dig-hyp | let-dig-hyp ldh-str

  predicate LetDig(c: char) { 'a' <= c <= 'z' || '0' <= c <= '9' }

  predicate LdhStr(s: string) {
    s != "" && (LetDig(s[0]) || s[0] == '-') && (|s| == 1 || LdhStr(s[1..]))
  }

  predicate Label(s: string) {
    && s != "" && LetDig(s[0])
    && (|s| == 1 || (LetDig(s[|s| - 1]) && (|s| == 2 || LdhStr(s[1..|s| - 1]))))
  }

  predicate LabelChar(s: string, i: nat)
    requires i < |s|
  { LetDig(s[i]) || (s[i] == '-' && 0 < i < |s| - 1) }

  lemma {:induction false} LdhStrMeans(s: string)
    ensures LdhStr(s) <==> s != "" && forall i :: 0 <= i < |s| ==> LetDig(s[i]) || s[i] == '-'
  {
    if |s| > 1 {
      LdhStrMeans(s[1..]);
      assert forall i :: 1 <= i < |s| ==> s[i] == s[1..][i - 1];
    }
  }

  lemma {:induction false} LabelMeans(s: string)
    ensures Label(s) <==> s != "" && forall i :: 0 <= i < |s| ==> LabelChar(s, i)
  {
    if |s| > 2 {
      var inner := s[1..|s| - 1];
      LdhStrMeans(inner);
      assert forall i :: 0 < i < |s| - 1 ==>
        (LabelChar(s, i) <==> LetDig(inner[i - 1]) || inner[i - 1] == '-');
      assert forall k :: 0 <= k < |inner| ==>
        (LetDig(inner[k]) || inner[k] == '-' <==> LabelChar(s, k + 1));
      assert LabelChar(s, 0) && LabelChar(s, |s| - 1) <==> LetDig(s[0]) && LetDig(s[|s| - 1]);
    } else if |s| == 2 {
      assert LabelChar(s, 0) && LabelChar(s, 1) <==> LetDig(s[0]) && LetDig(s[1]);
    } else if |s| == 1 {
      assert LabelChar(s, 0) <==> LetDig(s[0]);
    }
  }

  /** Accepts exactly the lower-case labels of at most 63 characters (section 2.3.4). */
  method IsValidSubdomain(s: string) returns (valid: bool)
    ensures valid <==> Label(s) && |s| <= 63
  {
    LabelMeans(s);
    if |s| == 0 || |s| > 63 {
      return false;
    }
    for i := 0 to |s|
      invariant forall j :: 0 <= j < i ==> LabelChar(s, j)
    {
      var c := s[i];
      if 'a' <= c <= 'z' { continue; }
      if '0' <= c <= '9' { continue; }
      if c == '-' && i > 0 && i < |s| - 1 { continue; }
      assert !LabelChar(s, i);
      return false;
    }
    return true;
  }

  lemma {:induction false} LabelPlain(s: string)
    requires Label(s)
    ensures '.' !in s && ':' !in s
  {
    LabelMeans(s);
    forall i | 0 <= i < |s| ensures s[i] != '.' && s[i] != ':' {
      assert LabelChar(s, i);
    }
  }

  // ---- Hosts ------------------------------------------------------------------------------

  /** The last label before the `.localhost` or `.internal` suffix. */
  function LastLabel(host: string): string {
    if HasSuffix(host, HttpConfig.LOCALHOST) then AfterLast(TrimSuffix(host, HttpConfig.LOCALHOST), '.')
    else if HasSuffix(host, HttpConfig.INTERNAL) then AfterLast(TrimSuffix(host, HttpConfig.INTERNAL), '.')
    else ""
  }

  function DetectFolderGroup(host: string, groups: Registry.Groups): string {
    var folder := LastLabel(BeforeFirst(host, ':'));
    if folder != "" && folder in groups then folder else ""
  }

  /** `host` is a name in `folder`: the folder itself, or anything under it. */
  ghost predicate HostIn(host: string, folder: string) {
    exists under, suffix ::
      && (under == "" || under[|under| - 1] == '.')
      && (suffix == HttpConfig.LOCALHOST || suffix == HttpConfig.INTERNAL)
      && host == under + folder + suffix
  }

  lemma {:induction false} LastLabelIff(host: string, folder: string)
    requires folder != ""
    ensures LastLabel(host) == folder <==> '.' !in folder && HostIn(host, folder)
  {
    if LastLabel(host) == folder {
      var under, suffix := LastLabelIn(host);
    }
    if '.' !in folder && HostIn(host, folder) {
      var under, suffix :| (under == "" || under[|under| - 1] == '.')
                           && (suffix == HttpConfig.LOCALHOST || suffix == HttpConfig.INTERNAL)
                           && host == under + folder + suffix;
      LastLabelOf(under, folder, suffix);
    }
  }

  lemma {:induction false} LastLabelIn(host: string) returns (under: string, suffix: string)
    requires LastLabel(host) != ""
    ensures '.' !in LastLabel(host)
    ensures under == "" || under[|under| - 1] == '.'
    ensures suffix == HttpConfig.LOCALHOST || suffix == HttpConfig.INTERNAL
    ensures host == under + LastLabel(host) + suffix
  {
    suffix := if HasSuffix(host, HttpConfig.LOCALHOST) then HttpConfig.LOCALHOST else HttpConfig.INTERNAL;
    var name := TrimSuffix(host, suffix);
    SuffixRestored(host, suffix);
    under := LastPart(name, '.');
  }

  lemma {:induction false} LastLabelOf(under: string, folder: string, suffix: string)
    requires under == "" || under[|under| - 1] == '.'
    requires suffix == HttpConfig.LOCALHOST || suffix == HttpConfig.INTERNAL
    requires '.' !in folder
    ensures LastLabel(under + folder + suffix) == folder
  {
    SuffixAppended(under + folder, suffix);
    HttpConfig.NotBothSuffixes(under + folder + suffix);
    if under == "" {
      assert under + folder == folder;
      AfterLastWhole(folder, '.');
    } else {
      var above := under[..|under| - 1];
      assert under + folder == above + ['.'] + folder;
      AfterLastAppended(above, '.', folder);
    }
  }

  /** What is detected, for every host and every set of groups. */
  lemma {:induction false} DetectedIff(host: string, groups: Registry.Groups, folder: string)
    requires folder != ""
    ensures DetectFolderGroup(host, groups) == folder <==>
              folder in groups && '.' !in folder && HostIn(BeforeFirst(host, ':'), folder)
  {
    LastLabelIff(BeforeFirst(host, ':'), folder);
  }

  /** Round trip: the host of a mapped process is read back to the folder of its
      group, with either suffix and any port part, if and only if the folder name
      has no dot and no colon. */
  lemma {:induction false} MappedHostDecodedIff(m: Discovered.Mapping, groups: Registry.Groups, suffix: string,
                                                port: string)
    requires Label(m.subdomain) && m.folderGroup in groups && m.folderGroup != ""
    requires suffix == HttpConfig.LOCALHOST || suffix == HttpConfig.INTERNAL
    requires port == "" || port[0] == ':'
    ensures DetectFolderGroup(Registry.MappedName(m) + suffix + port, groups) == m.folderGroup <==>
              '.' !in m.folderGroup && ':' !in m.folderGroup
  {
    var folder, host := m.folderGroup, Registry.MappedName(m) + suffix;
    var name := BeforeFirst(host + port, ':');
    DetectedIff(host + port, groups, folder);
    LabelPlain(m.subdomain);
    if ':' !in folder {
      NoColonIn(m, suffix);
      HostAlone(host, port);
      var under := m.subdomain + ".";
      assert host == under + folder + suffix;
      assert HostIn(name, folder);
    } else if HostIn(name, folder) {
      assert ':' !in name;
      ColonKept(name, folder);
    }
  }

  lemma {:induction false} NoColonIn(m: Discovered.Mapping, suffix: string)
    requires ':' !in m.subdomain && ':' !in m.folderGroup
    requires suffix == HttpConfig.LOCALHOST || suffix == HttpConfig.INTERNAL
    ensures ':' !in Registry.MappedName(m) + suffix
  {}

  lemma {:induction false} HostAlone(host: string, port: string)
    requires ':' !in host && (port == "" || port[0] == ':')
    ensures BeforeFirst(host + port, ':') == host
  {
    if port == "" {
      assert host + port == host;
    } else {
      assert host + port == host + [':'] + port[1..];
      BeforeFirstAppended(host, ':', port[1..]);
    }
  }

  lemma {:induction false} ColonKept(host: string, folder: string)
    requires HostIn(host, folder)
    ensures ':' in folder ==> ':' in host
  {
    var under, suffix :| (under == "" || under[|under| - 1] == '.')
                         && (suffix == HttpConfig.LOCALHOST || suffix == HttpConfig.INTERNAL)
                         && host == under + folder + suffix;
    if ':' in folder {
      var i :| 0 <= i < |folder| && folder[i] == ':';
      assert host[|under| + i] == ':';
    }
  }

  /** So the processes of a folder such as "my.app" are never recognised, when it
      is the only group. */
  lemma {:induction false} DottedFolderNotDetected(m: Discovered.Mapping, members: seq<Discovered.Service>)
    requires Label(m.subdomain) && '.' in m.folderGroup
    ensures DetectFolderGroup(Registry.MappedName(m) + HttpConfig.LOCALHOST, map[m.folderGroup := members]) == ""
  {
    var host := Registry.MappedName(m) + HttpConfig.LOCALHOST;
    assert host + "" == host;
    MappedHostDecodedIff(m, map[m.folderGroup := members], HttpConfig.LOCALHOST, "");
  }
}
