/**
 Detection of a design-time preview: the process runs in a preview exactly
 when its environment sets the preview variable to "1".
 */
module PreviewInspector {
  import opened Wrappers

  /** The environment variable the preview host sets. */
  const PreviewKey: string := "XCODE_RUNNING_FOR_PREVIEWS"

  /** A process's information; only its environment variables are modelled. */
  datatype ProcessInfo = ProcessInfo(environment: map<string, string>)
  {
    /** Whether the process runs in a preview. */
    predicate IsSwiftUIPreview()
      ensures IsSwiftUIPreview() <==> PreviewKey in environment && environment[PreviewKey] == "1"
    {
      Lookup(environment, PreviewKey) == Some("1")
    }
  }

  /** The value of a variable, if it is set. */
  function Lookup(environment: map<string, string>, key: string): (v: Option<string>)
    ensures v.Some? <==> key in environment
    ensures v.Some? ==> v.value == environment[key]
  {
    if key in environment then Some(environment[key]) else None
  }

  /** The static property: the answer of the shared process information. */
  function StaticIsSwiftUIPreview(shared: ProcessInfo): (b: bool)
    ensures b <==> PreviewKey in shared.environment && shared.environment[PreviewKey] == "1"
  {
    shared.IsSwiftUIPreview()
  }

  /** Without the variable, the process is not in a preview. */
  lemma AbsentKeyIsNotPreview(environment: map<string, string>)
    requires PreviewKey !in environment
    ensures !ProcessInfo(environment).IsSwiftUIPreview()
  {
  }

  /** Any value but exactly "1" means no preview, "0", "true" and "1 " included. */
  lemma OtherValueIsNotPreview(environment: map<string, string>, value: string)
    requires value != "1"
    ensures !ProcessInfo(environment[PreviewKey := value]).IsSwiftUIPreview()
  {
  }

  /** Setting the variable to "1" means a preview, whatever else the environment holds. */
  lemma OneIsPreview(environment: map<string, string>)
    ensures ProcessInfo(environment[PreviewKey := "1"]).IsSwiftUIPreview()
  {
  }

  /** Setting or removing any other variable does not change the answer. */
  lemma OtherKeysDoNotMatter(environment: map<string, string>, key: string, value: string)
    requires key != PreviewKey
    ensures ProcessInfo(environment[key := value]).IsSwiftUIPreview() == ProcessInfo(environment).IsSwiftUIPreview()
    ensures ProcessInfo(environment - {key}).IsSwiftUIPreview() == ProcessInfo(environment).IsSwiftUIPreview()
  {
  }
}
