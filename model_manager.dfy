/** The model manager: the fixed catalogue of chat models that `initialize` registers, and
    the lookup of a model by its name. */
module ModelManager {
  import opened Wrappers
  import opened PyStrings

  /** `LLMModelInfo`; the token manager and the requester, shared by every entry, are not kept. */
  datatype LlmModelInfo = LlmModelInfo(name: string, modelName: Option<string>, toolCallSupported: bool)

  const Gpt35Models: seq<LlmModelInfo> := [
    LlmModelInfo("gpt-3.5-turbo", None, true),
    LlmModelInfo("gpt-3.5-turbo-1106", None, true),
    LlmModelInfo("gpt-3.5-turbo-16k", None, true),
    LlmModelInfo("gpt-3.5-turbo-0613", None, true),
    LlmModelInfo("gpt-3.5-turbo-16k-0613", None, true),
    LlmModelInfo("gpt-3.5-turbo-0301", None, true)]

  const Gpt4Models: seq<LlmModelInfo> := [
    LlmModelInfo("gpt-4-0125-preview", None, true),
    LlmModelInfo("gpt-4-turbo-preview", None, true),
    LlmModelInfo("gpt-4-1106-preview", None, true),
    LlmModelInfo("gpt-4-vision-preview", None, true),
    LlmModelInfo("gpt-4", None, true),
    LlmModelInfo("gpt-4-0613", None, true),
    LlmModelInfo("gpt-4-32k", None, true),
    LlmModelInfo("gpt-4-32k-0613", None, true)]

  /** The provider model names of the OneAPI group, in registration order. */
  const OneApiModelNames: seq<string> := [
    "SparkDesk", "chatglm_pro", "chatglm_std", "chatglm_lite", "qwen-v1", "qwen-plus-v1",
    "ERNIE-Bot", "ERNIE-Bot-turbo", "gemini-pro"]

  /** A OneAPI entry: registered as "OneAPI/" + its provider model name, without tool calls. */
  function OneApiEntry(modelName: string): LlmModelInfo {
    LlmModelInfo("OneAPI/" + modelName, Some(modelName), false)
  }

  const OneApiModels: seq<LlmModelInfo> :=
    seq(|OneApiModelNames|, i requires 0 <= i < |OneApiModelNames| => OneApiEntry(OneApiModelNames[i]))

  /** Everything `initialize` adds, in order. */
  const Catalogue: seq<LlmModelInfo> := Gpt35Models + Gpt4Models + OneApiModels

  /** 6 gpt-3.5 entries, then 8 gpt-4 entries, then 9 OneAPI entries. */
  lemma CatalogueLayout()
    ensures |Gpt35Models| == 6 && |Gpt4Models| == 8 && |OneApiModels| == 9 && |Catalogue| == 23
    ensures Catalogue[..6] == Gpt35Models && Catalogue[6..14] == Gpt4Models && Catalogue[14..] == OneApiModels
  {
  }

  /** The gpt entries support tool calls, the OneAPI entries do not. */
  lemma ToolCallFlags()
    ensures forall i :: 0 <= i < |Catalogue| ==> (Catalogue[i].toolCallSupported <==> i < 14)
  {
  }

  /** A OneAPI entry's provider model name is its name without the "OneAPI/" prefix; a gpt
      entry has none. */
  lemma OneApiNames()
    ensures forall i :: 0 <= i < |OneApiModels| ==>
      (OneApiModels[i].modelName.Some?
       && StartsWith(OneApiModels[i].name, "OneAPI/")
       && OneApiModels[i].name[|"OneAPI/"|..] == OneApiModels[i].modelName.value)
    ensures forall i :: 0 <= i < |Gpt35Models + Gpt4Models| ==> (Gpt35Models + Gpt4Models)[i].modelName.None?
  {
    forall i | 0 <= i < |OneApiModels|
      ensures OneApiModels[i].modelName.Some?
      ensures StartsWith(OneApiModels[i].name, "OneAPI/")
      ensures OneApiModels[i].name[|"OneAPI/"|..] == OneApiModels[i].modelName.value
    {
      PrefixedName("OneAPI/", OneApiModelNames[i]);
    }
  }

  lemma PrefixedName(p: string, m: string)
    ensures StartsWith(p + m, p) && (p + m)[|p|..] == m
  {
  }

  function Names(list: seq<LlmModelInfo>): (r: seq<string>)
    ensures |r| == |list| && forall i :: 0 <= i < |list| ==> r[i] == list[i].name
  {
    seq(|list|, i requires 0 <= i < |list| => list[i].name)
  }

  predicate Distinct(names: seq<string>) {
    forall i, j :: 0 <= i < j < |names| ==> names[i] != names[j]
  }

  /** Two names that differ at one position differ. */
  lemma DifferAt(a: string, b: string, k: nat)
    requires k < |a| && k < |b| && a[k] != b[k]
    ensures a != b
  {
  }

  /** Every gpt-3.5 name reads "gpt-3..." and every gpt-4 name "gpt-4...". */
  lemma Gpt35Shape()
    ensures forall i :: 0 <= i < |Gpt35Models| ==> |Gpt35Models[i].name| > 4 && Gpt35Models[i].name[..5] == "gpt-3"
  {
  }

  lemma Gpt4Shape()
    ensures forall i :: 0 <= i < |Gpt4Models| ==> |Gpt4Models[i].name| > 4 && Gpt4Models[i].name[..5] == "gpt-4"
  {
  }

  lemma Gpt35Distinct()
    ensures Distinct(Names(Gpt35Models))
  {
  }

  lemma Gpt4Distinct()
    ensures Distinct(Names(Gpt4Models))
  {
  }

  /** The OneAPI names are distinct because their provider model names are. */
  lemma OneApiDistinct()
    ensures Distinct(Names(OneApiModels))
  {
    assert Distinct(OneApiModelNames);
    forall i, j | 0 <= i < j < |OneApiModels| ensures OneApiModels[i].name != OneApiModels[j].name {
      PrefixedName("OneAPI/", OneApiModelNames[i]);
      PrefixedName("OneAPI/", OneApiModelNames[j]);
    }
  }

  /** Names from two different groups differ: at their fifth character ('3' against '4'),
      or at their first ('g' against 'O'). */
  lemma GroupsApart(a: string, b: string)
    requires |a| > 4 && (a[..5] == "gpt-3" || a[..5] == "gpt-4")
    requires (|b| > 4 && a[..5] != b[..5] && (b[..5] == "gpt-3" || b[..5] == "gpt-4")) || StartsWith(b, "OneAPI/")
    ensures a != b
  {
    assert a[..5][0] == a[0] == 'g';
    if StartsWith(b, "OneAPI/") {
      assert b[..|"OneAPI/"|][0] == b[0] == 'O';
    }
  }

  /** No two catalogue entries share a name: each group's names are distinct, and names of
      different groups are told apart by their first five characters. */
  lemma NamesDistinct()
    ensures forall i, j :: 0 <= i < j < |Catalogue| ==> Catalogue[i].name != Catalogue[j].name
  {
    Gpt35Distinct();
    Gpt4Distinct();
    OneApiDistinct();
    Gpt35Shape();
    Gpt4Shape();
    OneApiNames();
    CatalogueLayout();
    forall i, j | 0 <= i < j < |Catalogue| ensures Catalogue[i].name != Catalogue[j].name {
      var a, b := Catalogue[i].name, Catalogue[j].name;
      if i < 6 && j < 6 {
        assert a == Names(Gpt35Models)[i] && b == Names(Gpt35Models)[j];
      } else if 6 <= i && j < 14 {
        assert a == Names(Gpt4Models)[i - 6] && b == Names(Gpt4Models)[j - 6];
      } else if 14 <= i {
        assert a == Names(OneApiModels)[i - 14] && b == Names(OneApiModels)[j - 14];
      } else {
        assert a == (if i < 6 then Gpt35Models[i] else Gpt4Models[i - 6]).name;
        assert b == (if j < 14 then Gpt4Models[j - 6] else OneApiModels[j - 14]).name;
        GroupsApart(a, b);
      }
    }
  }

  /** The position of the first model of that name. */
  function FirstNamed(list: seq<LlmModelInfo>, name: string): (r: Option<nat>)
    ensures r.Some? ==>
      (r.value < |list| && list[r.value].name == name
       && forall j :: 0 <= j < r.value ==> list[j].name != name)
    ensures r.None? ==> forall j :: 0 <= j < |list| ==> list[j].name != name
  {
    if list == [] then None
    else if list[0].name == name then Some(0)
    else match FirstNamed(list[1..], name)
      case None => None
      case Some(k) => Some(k + 1)
  }

  lemma FirstNamedAt(list: seq<LlmModelInfo>, name: string, i: nat)
    requires i < |list| && list[i].name == name
    requires forall j :: 0 <= j < i ==> list[j].name != name
    ensures FirstNamed(list, name) == Some(i)
  {
    var r := FirstNamed(list, name);
    assert !(r.value < i) && !(r.value > i);
  }

  /** After `initialize` on an empty registry, every catalogue model is found under its own name. */
  lemma EveryEntryFound()
    ensures forall i :: 0 <= i < |Catalogue| ==> FirstNamed(Catalogue, Catalogue[i].name) == Some(i)
  {
    NamesDistinct();
    forall i | 0 <= i < |Catalogue| ensures FirstNamed(Catalogue, Catalogue[i].name) == Some(i) {
      FirstNamedAt(Catalogue, Catalogue[i].name, i);
    }
  }

  /** Models registered before `initialize` keep precedence over catalogue entries of the same name. */
  lemma EarlierEntriesWin(list: seq<LlmModelInfo>, name: string)
    requires FirstNamed(list, name).Some?
    ensures FirstNamed(list + Catalogue, name) == FirstNamed(list, name)
  {
    var i := FirstNamed(list, name).value;
    FirstNamedAt(list + Catalogue, name, i);
  }

  class Manager {
    var modelList: seq<LlmModelInfo>

    constructor ()
      ensures modelList == []
    {
      modelList := [];
    }

    /** `get_model_by_name`: the first model of that name, or `ValueError`. Changes nothing. */
    method GetModelByName(name: string) returns (r: Result<LlmModelInfo, string>)
      ensures FirstNamed(modelList, name).Some? ==> r == Success(modelList[FirstNamed(modelList, name).value])
      ensures FirstNamed(modelList, name).None? ==> r == Failure("不支持模型: " + name + " , 请检查配置文件")
    {
      for i := 0 to |modelList|
        invariant forall j :: 0 <= j < i ==> modelList[j].name != name
      {
        if modelList[i].name == name {
          FirstNamedAt(modelList, name, i);
          return Success(modelList[i]);
        }
      }
      return Failure("不支持模型: " + name + " , 请检查配置文件");
    }

    /** `initialize`: extends the list with the three groups of the catalogue in turn; the
        entries already there stay in front. */
    method Initialize()
      modifies this
      ensures modelList == old(modelList) + Catalogue
      ensures modelList[..|old(modelList)|] == old(modelList)
    {
      modelList := modelList + Gpt35Models;
      modelList := modelList + Gpt4Models;
      modelList := modelList + OneApiModels;
    }
  }
}
