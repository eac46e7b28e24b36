/** The configuration of one volume, merged from the StorageClass and the defaults, and its
    getters. */
module VolumeConfigs {
  import opened Wrappers
  import opened HostpathMachine

  datatype VolumeConfig = VolumeConfig(
    basePath: Option<Path>,
    nodeAffinityKeys: Option<seq<string>>,
    xfsEnabled: string, xfsSoft: string, xfsHard: string,
    ext4Enabled: string, ext4Soft: string, ext4Hard: string,
    // for device volumes
    blockDeviceTag: string, nodeAffinityLabel: string, fsType: string)
  {
    predicate IsXfsQuotaEnabled() { ParseBool(TrimSpace(xfsEnabled)) }

    predicate IsExt4QuotaEnabled() { ParseBool(TrimSpace(ext4Enabled)) }

    function Quotas(): nat {
      (if IsXfsQuotaEnabled() then 1 else 0) + (if IsExt4QuotaEnabled() then 1 else 0)
    }

    /** A volume lives in a directory of its own name under the base path; a blank base path
        is an error, and so is a directory directly under the root. */
    function GetPath(name: string): Option<Path> {
      if basePath.None? || basePath.value == [] then None else Some(basePath.value + [name])
    }
  }

  /** A getter of a text: blank counts as not set. */
  function Text(value: string): string {
    if TrimSpace(value) == "" then "" else value
  }

  /** unicode.IsSpace */
  predicate IsSpace(c: char) {
    || '\t' <= c <= '\r' || c == ' '
    || c as int in {0x85, 0xA0, 0x1680, 0x2028, 0x2029, 0x202F, 0x205F, 0x3000} || 0x2000 <= c as int <= 0x200A
  }

  function TrimSpace(s: string): string {
    if s != "" && IsSpace(s[0]) then TrimSpace(s[1..])
    else if s != "" && IsSpace(s[|s| - 1]) then TrimSpace(s[..|s| - 1])
    else s
  }

  predicate AllSpaces(s: string) {
    forall i | 0 <= i < |s| :: IsSpace(s[i])
  }

  /** Nothing is left of spaces, and of anything else all between the first and the last
      character that is not one. */
  lemma {:induction false} SpacesGo(front: string, core: string, back: string)
    requires AllSpaces(front) && AllSpaces(back)
    requires core != "" ==> !IsSpace(core[0]) && !IsSpace(core[|core| - 1])
    ensures TrimSpace(front + core + back) == core
    decreases |front| + |back|
  {
    var s := front + core + back;
    if front != "" {
      assert s[0] == front[0] && s[1..] == front[1..] + core + back;
      SpacesGo(front[1..], core, back);
    } else if back != "" {
      if core == "" {
        assert s[0] == back[0] && s[1..] == front + core + back[1..];
        SpacesGo(front, core, back[1..]);
      } else {
        assert s[0] == core[0] && s[|s| - 1] == back[|back| - 1];
        assert s[..|s| - 1] == front + core + back[..|back| - 1];
        SpacesGo(front, core, back[..|back| - 1]);
      }
    } else {
      assert s == core;
    }
  }

  /** Every text is one of these. */
  lemma {:induction false} SpacesAround(s: string) returns (front: string, back: string)
    ensures s == front + TrimSpace(s) + back && AllSpaces(front) && AllSpaces(back)
    ensures TrimSpace(s) != "" ==> !IsSpace(TrimSpace(s)[0]) && !IsSpace(TrimSpace(s)[|TrimSpace(s)| - 1])
    decreases |s|
  {
    front, back := "", "";
    if s != "" && IsSpace(s[0]) {
      front, back := SpacesAround(s[1..]);
      assert s == [s[0]] + s[1..];
      front := [s[0]] + front;
    } else if s != "" && IsSpace(s[|s| - 1]) {
      front, back := SpacesAround(s[..|s| - 1]);
      assert s == s[..|s| - 1] + [s[|s| - 1]];
      back := back + [s[|s| - 1]];
    }
  }

  /** A text of spaces counts as none; any other is taken as it is, with its spaces. */
  lemma BlankTexts(value: string)
    ensures Text(value) == if AllSpaces(value) then "" else value
  {
    var front, back := SpacesAround(value);
    if AllSpaces(value) {
      SpacesGo(value, "", "");
      assert value + "" + "" == value;
    }
  }

  /** A quota is enabled by these words and by nothing else, with or without spaces around. */
  lemma WhatEnables(config: VolumeConfig, front: string, word: string, back: string)
    requires AllSpaces(front) && AllSpaces(back) && (word != "" ==> !IsSpace(word[0]) && !IsSpace(word[|word| - 1]))
    ensures config.xfsEnabled == front + word + back ==>
      (config.IsXfsQuotaEnabled() <==> word in ["1", "t", "T", "true", "TRUE", "True"])
    ensures config.ext4Enabled == front + word + back ==>
      (config.IsExt4QuotaEnabled() <==> word in ["1", "t", "T", "true", "TRUE", "True"])
  {
    SpacesGo(front, word, back);
  }

  /** strconv.ParseBool, with an error read as false. */
  predicate ParseBool(s: string) {
    s in ["1", "t", "T", "true", "TRUE", "True"]
  }
}
