/**
 * The prompt selector: a fixed table from a user role to the system
 * instruction that steers the assistant, with the customer instruction as
 * the default for every other key.
 */
module ChatUtils {
  import opened Text

  // The three instructions, written as concatenations split at their marker phrases.
  const CustomerPrompt: string :=
    "You are a " + "helpful AI assistant for customers" + ". Be " + "friendly"
    + ", clear, and helpful in solving their needs."
  const SupportAgentPrompt: string :=
    "You are an " + "AI assistant for support agents" + ". Provide " + "detailed, accurate information"
    + " to help resolve customer issues."
  const ManagerPrompt: string :=
    "You are an " + "AI assistant for managers" + ". Provide " + "strategic insights" + " and "
    + "data-driven" + " recommendations."

  /** The three roles the table knows, matched exactly (case and spacing included). */
  predicate IsKnownRole(userType: string)
  {
    userType == "customer" || userType == "support_agent" || userType == "manager"
  }

  /** The table itself, keyed by role. */
  function Prompts(): map<string, string>
  {
    map["customer" := CustomerPrompt, "support_agent" := SupportAgentPrompt, "manager" := ManagerPrompt]
  }

  /** `get_system_prompt`: a lookup with the customer entry as fallback. */
  function GetSystemPrompt(userType: string): (prompt: string)
    ensures prompt == CustomerPrompt || prompt == SupportAgentPrompt || prompt == ManagerPrompt
    ensures |prompt| > 0
    ensures !IsKnownRole(userType) ==> prompt == CustomerPrompt
    ensures userType == "support_agent" <==> prompt == SupportAgentPrompt
    ensures userType == "manager" <==> prompt == ManagerPrompt
  {
    var prompts := Prompts();
    if userType in prompts then prompts[userType] else prompts["customer"]
  }

  /** The three known roles get pairwise distinct prompts, so the prompt identifies the role. */
  lemma KnownPromptsDistinct(r1: string, r2: string)
    requires IsKnownRole(r1) && IsKnownRole(r2)
    ensures GetSystemPrompt(r1) == GetSystemPrompt(r2) <==> r1 == r2
  {
  }

  /** Each role's prompt carries the marker phrases of that role. */
  lemma PromptMarkers()
    ensures Contains(GetSystemPrompt("customer"), "helpful AI assistant for customers")
    ensures Contains(GetSystemPrompt("customer"), "friendly")
    ensures Contains(GetSystemPrompt("support_agent"), "AI assistant for support agents")
    ensures Contains(GetSystemPrompt("support_agent"), "detailed, accurate information")
    ensures Contains(GetSystemPrompt("manager"), "AI assistant for managers")
    ensures Contains(GetSystemPrompt("manager"), "strategic insights")
    ensures Contains(GetSystemPrompt("manager"), "data-driven")
  {
    var c1, c2 := "helpful AI assistant for customers", "friendly";
    assert CustomerPrompt == "You are a " + c1 + (". Be " + c2 + ", clear, and helpful in solving their needs.");
    ContainsMiddle("You are a ", c1, ". Be " + c2 + ", clear, and helpful in solving their needs.");
    ContainsMiddle("You are a " + c1 + ". Be ", c2, ", clear, and helpful in solving their needs.");
    var s1, s2 := "AI assistant for support agents", "detailed, accurate information";
    assert SupportAgentPrompt == "You are an " + s1 + (". Provide " + s2 + " to help resolve customer issues.");
    ContainsMiddle("You are an ", s1, ". Provide " + s2 + " to help resolve customer issues.");
    ContainsMiddle("You are an " + s1 + ". Provide ", s2, " to help resolve customer issues.");
    var m1, m2, m3 := "AI assistant for managers", "strategic insights", "data-driven";
    assert ManagerPrompt == "You are an " + m1 + (". Provide " + m2 + " and " + m3 + " recommendations.");
    ContainsMiddle("You are an ", m1, ". Provide " + m2 + " and " + m3 + " recommendations.");
    assert ManagerPrompt == "You are an " + m1 + ". Provide " + m2 + (" and " + m3 + " recommendations.");
    ContainsMiddle("You are an " + m1 + ". Provide ", m2, " and " + m3 + " recommendations.");
    ContainsMiddle("You are an " + m1 + ". Provide " + m2 + " and ", m3, " recommendations.");
  }
}
