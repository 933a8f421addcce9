/**
 * Filename derivation: the auto/index form `f"{base}_{i:03d}"`, the explicit
 * filename list, the suffix list and the template. Templates are modelled as
 * a sequence of tokens (literal text and the `{base}`, `{index}`,
 * `{index:03d}` and `{suffix}` fields) instead of a `str.format` string.
 */
module Naming {
  import opened Text

  /** The `filename_mode` choices of the dynamic and advanced nodes. */
  datatype FilenameMode = AutoIndex | FileList | SuffixList | Template

  /** One piece of a filename template. */
  datatype Token = Literal(text: string) | BaseField | IndexField | PaddedIndexField | SuffixField

  /** `f"{base_filename}_{current_index:03d}"`. */
  function AutoName(base: string, index: nat): string {
    base + "_" + Pad3(index)
  }

  /**
   * `suffix_list` with a non-empty list: the suffix at `index` appended to the
   * base with no separator, or `_{index:03d}` when the list is too short.
   */
  function SuffixName(base: string, suffixes: seq<string>, index: nat): string {
    base + (if index < |suffixes| then suffixes[index] else "_" + Pad3(index))
  }

  /** `template.format(base=..., index=..., suffix=...)` for a well-formed template. */
  function Render(template: seq<Token>, base: string, index: nat, suffix: string): string {
    if template == [] then
      ""
    else
      var head := match template[0]
        case Literal(text) => text
        case BaseField => base
        case IndexField => Decimal(index)
        case PaddedIndexField => Pad3(index)
        case SuffixField => suffix;
      head + Render(template[1..], base, index, suffix)
  }

  /** The `{suffix}` value: the list entry at `index`, or "", with every leading `_` removed. */
  function TemplateSuffix(suffixes: seq<string>, index: nat): string {
    LStripUnderscores(if index < |suffixes| then suffixes[index] else "")
  }

  function TemplateName(template: seq<Token>, base: string, suffixes: seq<string>, index: nat): string {
    Render(template, base, index, TemplateSuffix(suffixes, index))
  }

  /** The basic node: the listed filename when there is one at `index`, else the auto form. */
  function BasicName(base: string, filenames: seq<string>, index: nat): string {
    if filenames != [] && index < |filenames| then filenames[index] else AutoName(base, index)
  }

  /** The dynamic node: suffix list (when non-empty), template, or else the auto form. */
  function DynamicName(mode: FilenameMode, base: string, suffixes: seq<string>, template: seq<Token>,
                       index: nat): string {
    if mode == SuffixList && suffixes != [] then SuffixName(base, suffixes, index)
    else if mode == Template then TemplateName(template, base, suffixes, index)
    else AutoName(base, index)
  }

  /** The advanced node: list (when it has an entry at `index`), suffix list, template, or index. */
  function AdvancedName(mode: FilenameMode, base: string, filenames: seq<string>, suffixes: seq<string>,
                        template: seq<Token>, index: nat): string {
    if mode == FileList && filenames != [] && index < |filenames| then filenames[index]
    else if mode == SuffixList && suffixes != [] then SuffixName(base, suffixes, index)
    else if mode == Template then TemplateName(template, base, suffixes, index)
    else AutoName(base, index)
  }

  /**
   * The auto form can be read back: it is the base, an underscore, and digits
   * that denote the index (exactly three of them below 1000).
   */
  lemma AutoNameRecoversIndex(base: string, index: nat)
    ensures var name := AutoName(base, index);
      && name[..|base|] == base
      && name[|base|] == '_'
      && ValueOf(name[|base| + 1..]) == index
      && (index < 1000 ==> |name| == |base| + 4)
      && forall k :: |base| < k < |name| ==> IsDigit(name[k])
  {
    Pad3RoundTrip(index);
    var name := AutoName(base, index);
    assert name[|base| + 1..] == Pad3(index);
    forall k | |base| < k < |name| ensures IsDigit(name[k]) {
      assert name[k] == Pad3(index)[k - |base| - 1];
    }
  }

  /** Distinct indices get distinct auto names, so no two prompts of a batch overwrite each other. */
  lemma AutoNameInjective(base: string, i: nat, j: nat)
    requires AutoName(base, i) == AutoName(base, j)
    ensures i == j
  {
    AutoNameRecoversIndex(base, i);
    AutoNameRecoversIndex(base, j);
  }

  /** Rendering distributes over concatenation of templates. */
  lemma {:induction false} RenderConcat(t1: seq<Token>, t2: seq<Token>, base: string, index: nat, suffix: string)
    ensures Render(t1 + t2, base, index, suffix) == Render(t1, base, index, suffix) + Render(t2, base, index, suffix)
  {
    if t1 == [] {
      assert t1 + t2 == t2;
    } else {
      assert (t1 + t2)[0] == t1[0] && (t1 + t2)[1..] == t1[1..] + t2;
      RenderConcat(t1[1..], t2, base, index, suffix);
    }
  }

  /** A template without a `{suffix}` field does not depend on the suffix list. */
  lemma {:induction false} RenderIgnoresSuffix(template: seq<Token>, base: string, index: nat, s1: string, s2: string)
    requires forall k :: 0 <= k < |template| ==> template[k] != SuffixField
    ensures Render(template, base, index, s1) == Render(template, base, index, s2)
  {
    if template != [] {
      RenderIgnoresSuffix(template[1..], base, index, s1, s2);
    }
  }

  /** The template `{base}_{index:03d}` names files exactly like the auto/index mode. */
  lemma TemplateMatchesAutoName(base: string, suffixes: seq<string>, index: nat)
    ensures TemplateName([BaseField, Literal("_"), PaddedIndexField], base, suffixes, index) == AutoName(base, index)
  {
    AutoTemplateRenders(base, index, TemplateSuffix(suffixes, index));
  }

  lemma AutoTemplateRenders(base: string, index: nat, suffix: string)
    ensures Render([BaseField, Literal("_"), PaddedIndexField], base, index, suffix) == base + "_" + Pad3(index)
  {
    var t := [BaseField, Literal("_"), PaddedIndexField];
    var p := Pad3(index);
    assert t[1..] == [Literal("_"), PaddedIndexField];
    assert t[1..][1..] == [PaddedIndexField];
    assert t[1..][1..][1..] == [];
    assert Render([PaddedIndexField], base, index, suffix) == p + "";
    assert Render(t[1..], base, index, suffix) == "_" + (p + "");
    assert base + ("_" + (p + "")) == base + "_" + p;
  }

  /**
   * The `{suffix}` field never starts with an underscore, and it is the list
   * entry with all of its leading underscores removed (`"__back"` gives `"back"`).
   */
  lemma TemplateSuffixShape(suffixes: seq<string>, index: nat)
    ensures var s := TemplateSuffix(suffixes, index);
      && (s == [] || s[0] != '_')
      && (index >= |suffixes| ==> s == [])
      && (index < |suffixes| ==>
            var e := suffixes[index];
            |s| <= |e| && s == e[|e| - |s|..] && forall k :: 0 <= k < |e| - |s| ==> e[k] == '_')
  {
  }

  lemma DoubleUnderscoreSuffix()
    ensures TemplateSuffix(["__back"], 0) == "back"
  {
    var s0 := "__back";
    var s1 := s0[1..];
    var s2 := s1[1..];
    assert s0[0] == '_' && s1[0] == '_' && s2[0] == 'b';
    assert LStripUnderscores(s2) == s2;
    assert LStripUnderscores(s0) == LStripUnderscores(s1) == LStripUnderscores(s2);
    assert s2 == "back";
  }

  /** The basic node's rule is the advanced node's `list` mode. */
  lemma BasicNameIsListMode(base: string, filenames: seq<string>, suffixes: seq<string>,
                            template: seq<Token>, index: nat)
    ensures BasicName(base, filenames, index) == AdvancedName(FileList, base, filenames, suffixes, template, index)
  {
  }

  /**
   * The dynamic and advanced nodes agree on every mode but `list`, which the
   * dynamic node does not offer and treats as its default, the auto form.
   */
  lemma DynamicAgreesWithAdvanced(mode: FilenameMode, base: string, filenames: seq<string>,
                                  suffixes: seq<string>, template: seq<Token>, index: nat)
    ensures mode != FileList ==>
      DynamicName(mode, base, suffixes, template, index) == AdvancedName(mode, base, filenames, suffixes, template, index)
    ensures DynamicName(FileList, base, suffixes, template, index) == AutoName(base, index)
  {
  }

  /**
   * A `list` mode that has no entry at `index` and a `suffix_list` mode with an
   * empty list both fall back to the auto form, never to an empty name.
   */
  lemma AdvancedFallbacks(base: string, filenames: seq<string>, suffixes: seq<string>,
                          template: seq<Token>, index: nat)
    ensures index >= |filenames| ==> AdvancedName(FileList, base, filenames, suffixes, template, index) == AutoName(base, index)
    ensures suffixes == [] ==> AdvancedName(SuffixList, base, filenames, suffixes, template, index) == AutoName(base, index)
    ensures |AutoName(base, index)| >= |base| + 4
  {
    Pad3RoundTrip(index);
  }

  /** The suffix-list example: base "character" with suffixes `_front`, `_left`. */
  lemma SuffixListExample()
    ensures SuffixName("character", ["_front", "_left"], 0) == "character_front"
    ensures SuffixName("character", ["_front", "_left"], 1) == "character_left"
  {
  }
}
