// Per-site selector configurations and the preset table shipped with the
// extension (default-configs.js).  A configuration is keyed by the site id
// of the page's hostname; a missing property is `None`.

module SiteConfigs {
  import opened Common
  import opened SiteIds

  datatype SiteConfig = SiteConfig(
    name: Option<string>,
    inputSelector: Option<string>,
    sendButtonSelector: Option<string>,
    version: Option<string>,
    notes: Option<string>)

  function Preset(name: string, input: string, send: Option<string>, version: string, notes: string): SiteConfig {
    SiteConfig(Some(name), Some(input), send, Some(version), Some(notes))
  }

  const DefaultConfigs: map<string, SiteConfig> := map[
    "chat_deepseek_com" := Preset("DeepSeek", "textarea", None, "2025-10-20", "使用Enter键发送，通用且稳定"),
    "chatgpt_com" := Preset("ChatGPT", "#prompt-textarea", Some("button[data-testid=\"send-button\"]"), "2025-01-19", "适用于ChatGPT官方网站"),
    "gemini_google_com" := Preset("Gemini", ".ql-editor", Some("button[aria-label*=\"Send\"]"), "2025-01-19", "适用于Google Gemini，使用Quill编辑器"),
    "claude_ai" := Preset("Claude", "div[contenteditable=\"true\"]", Some("button[aria-label*=\"Send\"]"), "2025-01-19", "适用于Anthropic Claude"),
    "tongyi_aliyun_com" := Preset("通义千问", "textarea[placeholder*=\"输入\"]", Some("button[type=\"submit\"]"), "2025-01-19", "适用于阿里云通义千问"),
    "yiyan_baidu_com" := Preset("文心一言", "textarea", Some("button[type=\"submit\"]"), "2025-01-19", "适用于百度文心一言"),
    "kimi_moonshot_cn" := Preset("Kimi", "textarea", Some("button[type=\"submit\"]"), "2025-01-19", "适用于Moonshot Kimi"),
    "doubao_com" := Preset("豆包", "textarea[placeholder*=\"输入\"]", Some("button[aria-label*=\"发送\"]"), "2025-01-19", "适用于字节豆包"),
    "poe_com" := Preset("Poe", "textarea[class*=\"ChatMessageInput\"]", Some("button[class*=\"ChatMessageSendButton\"]"), "2025-01-19", "适用于Poe.com"),
    "perplexity_ai" := Preset("Perplexity", "textarea[placeholder*=\"Ask\"]", Some("button[aria-label*=\"Submit\"]"), "2025-01-19", "适用于Perplexity AI"),
    "you_com" := Preset("You.com", "textarea[name=\"query\"]", Some("button[type=\"submit\"]"), "2025-01-19", "适用于You.com AI搜索"),
    "huggingface_co" := Preset("HuggingChat", "textarea[name=\"message\"]", Some("button[type=\"submit\"]"), "2025-01-19", "适用于HuggingFace Chat")
  ]

  /** Lower-case letters, digits and `_` only. */
  predicate IsLowerSiteId(s: string) {
    forall i :: 0 <= i < |s| ==> ('a' <= s[i] <= 'z') || ('0' <= s[i] <= '9') || s[i] == '_'
  }

  /** Every preset key is already a lower-case site id: the hostname rule maps it to itself. */
  lemma DefaultKeysAreSiteIds()
    ensures forall k :: k in DefaultConfigs ==> IsLowerSiteId(k) && IsSiteIdShape(k) && SiteId(k) == k
  {
    PresetKeysShapedA();
    PresetKeysShapedB();
    PresetKeysShapedC();
    assert forall k :: k in DefaultConfigs ==> IsLowerSiteId(k);
    forall k | k in DefaultConfigs ensures IsSiteIdShape(k) && SiteId(k) == k {
      LowerIdIsShaped(k);
      SiteIdFixesIdShape(k);
    }
  }

  lemma LowerIdIsShaped(s: string)
    requires IsLowerSiteId(s)
    ensures IsSiteIdShape(s)
  {
  }

  /** The preset table has twelve entries. */
  lemma PresetTableSize()
    ensures |DefaultConfigs.Keys| == 12
  {
    var keys: set<string> := {};
    assert "chat_deepseek_com" !in keys;
    keys := keys + {"chat_deepseek_com"};
    assert "chatgpt_com" !in keys;
    keys := keys + {"chatgpt_com"};
    assert "gemini_google_com" !in keys;
    keys := keys + {"gemini_google_com"};
    assert "claude_ai" !in keys;
    keys := keys + {"claude_ai"};
    assert "tongyi_aliyun_com" !in keys;
    keys := keys + {"tongyi_aliyun_com"};
    assert "yiyan_baidu_com" !in keys;
    keys := keys + {"yiyan_baidu_com"};
    assert "kimi_moonshot_cn" !in keys;
    keys := keys + {"kimi_moonshot_cn"};
    assert "doubao_com" !in keys;
    keys := keys + {"doubao_com"};
    assert "poe_com" !in keys;
    keys := keys + {"poe_com"};
    assert "perplexity_ai" !in keys;
    keys := keys + {"perplexity_ai"};
    assert "you_com" !in keys;
    keys := keys + {"you_com"};
    assert "huggingface_co" !in keys;
    keys := keys + {"huggingface_co"};
    assert DefaultConfigs.Keys == keys;
  }

  // The preset keys are checked character by character, four at a time.

  lemma PresetKeysShapedA()
    ensures IsLowerSiteId("chat_deepseek_com") && IsLowerSiteId("chatgpt_com") && IsLowerSiteId("gemini_google_com") && IsLowerSiteId("claude_ai")
  {
  }

  lemma PresetKeysShapedB()
    ensures IsLowerSiteId("tongyi_aliyun_com") && IsLowerSiteId("yiyan_baidu_com") && IsLowerSiteId("kimi_moonshot_cn") && IsLowerSiteId("doubao_com")
  {
  }

  lemma PresetKeysShapedC()
    ensures IsLowerSiteId("poe_com") && IsLowerSiteId("perplexity_ai") && IsLowerSiteId("you_com") && IsLowerSiteId("huggingface_co")
  {
  }

  /** Every preset names its site and input selector and carries a version. */
  lemma DefaultsAreComplete()
    ensures forall k :: k in DefaultConfigs ==>
      Given(DefaultConfigs[k].name) && Given(DefaultConfigs[k].inputSelector) && Given(DefaultConfigs[k].version)
  {
  }

  /** DeepSeek is the one preset without a send-button selector (it relies on Enter). */
  lemma OnlyDeepSeekLacksSendSelector()
    ensures forall k :: k in DefaultConfigs ==>
      (DefaultConfigs[k].sendButtonSelector.None? <==> k == "chat_deepseek_com")
    ensures forall k :: k in DefaultConfigs && k != "chat_deepseek_com" ==> Given(DefaultConfigs[k].sendButtonSelector)
  {
  }
}
