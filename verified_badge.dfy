/** The status pill shown on health-test cards and breeder tiles: a fixed
    table of four known statuses, a fall-back to the verified look for any
    other status, and an optional caller text that replaces the default. */
module VerifiedBadge {
  import opened Common

  datatype Icon = CheckCircle | UploadCloud | Clock | XCircle

  datatype Config = Config(icon: Icon, className: string, defaultText: string)

  const Configs: map<string, Config> := map[
    "verified" := Config(CheckCircle, "bg-[#2ECC71]/20 text-[#2ECC71] border border-[#2ECC71]/30", "Auto-Verified"),
    "uploaded" := Config(UploadCloud, "bg-[#3498DB]/20 text-[#3498DB] border border-[#3498DB]/30", "Uploaded"),
    "pending" := Config(Clock, "bg-[#F1C40F]/20 text-[#F1C40F] border border-[#F1C40F]/30", "Pending"),
    "missing" := Config(XCircle, "bg-[#E74C3C]/20 text-[#E74C3C] border border-[#E74C3C]/30", "Not Done")
  ]

  const SizeClasses: map<string, string> := map[
    "small" := "text-xs px-2 py-0.5",
    "default" := "text-sm px-3 py-1",
    "large" := "text-base px-4 py-2"
  ]

  /** The component's props; an omitted prop is None. */
  datatype Props = Props(status: Option<string>, text: Option<string>, size: Option<string>)

  /** What the badge renders. */
  datatype View = View(testId: string, sizeClass: string, config: Config, text: string)

  /** The configuration for a status, or the verified one for an unknown status. */
  function ConfigFor(status: string): (c: Config)
    ensures status in Configs ==> c == Configs[status]
    ensures status !in Configs ==> c == Configs["verified"]
  {
    if status in Configs then Configs[status] else Configs["verified"]
  }

  /** An unknown size interpolates as the text "undefined". */
  function SizeClass(size: string): string
  {
    if size in SizeClasses then SizeClasses[size] else "undefined"
  }

  function Render(p: Props): View
  {
    var status := match p.status case Some(s) => s case None => "verified";
    var size := match p.size case Some(s) => s case None => "default";
    var config := ConfigFor(status);
    var text := match p.text case Some(t) => if t != "" then t else config.defaultText case None => config.defaultText;
    View("badge-" + status, SizeClass(size), config, text)
  }

  /** With no props the badge is the default-size verified badge. */
  lemma DefaultProps()
    ensures Render(Props(None, None, None)) == Render(Props(Some("verified"), None, Some("default")))
    ensures Render(Props(None, None, None)).text == "Auto-Verified"
  {
  }

  /** The four known statuses show their own default texts. */
  lemma DefaultTexts(size: Option<string>)
    ensures Render(Props(Some("verified"), None, size)).text == "Auto-Verified"
    ensures Render(Props(Some("uploaded"), None, size)).text == "Uploaded"
    ensures Render(Props(Some("pending"), None, size)).text == "Pending"
    ensures Render(Props(Some("missing"), None, size)).text == "Not Done"
  {
  }

  /** An unrecognised status renders exactly like "verified" except for its test id. */
  lemma UnknownStatusLooksVerified(status: string, text: Option<string>, size: Option<string>)
    requires status !in Configs
    ensures var v := Render(Props(Some(status), text, size));
            var w := Render(Props(Some("verified"), text, size));
            v.config == w.config && v.text == w.text && v.sizeClass == w.sizeClass
            && v.testId == "badge-" + status
  {
  }

  /** A non-empty text replaces the default text, whatever the status. */
  lemma TextOverrides(status: Option<string>, text: string, size: Option<string>)
    requires text != ""
    ensures Render(Props(status, Some(text), size)).text == text
  {
  }

  /** Distinct known statuses never look alike: their icons differ. */
  lemma KnownStatusesDistinct(a: string, b: string)
    requires a in Configs && b in Configs && a != b
    ensures ConfigFor(a).icon != ConfigFor(b).icon
  {
  }
}
