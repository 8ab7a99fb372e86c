/**
  * The prompt builder: `AudioScriptInput` and `create_music_gen_prompt`
  * (prompt.py). Three optional metadata fields fall back to defaults under
  * Python's `or` (so both `None` and `""` do), the script and the resolved
  * values are spliced into a fixed user-prompt template, and a three-key
  * dictionary is returned whose other two values are fixed texts.
  */
module Prompt {
  import opened Wrappers
  import opened Strings

  /** The input record: the script text and three optional metadata fields, absent unless given. */
  datatype AudioScriptInput = AudioScriptInput(
    script: string,
    quizTheme: Option<string> := None,
    mood: Option<string> := None,
    targetAge: Option<string> := None)

  const DefaultQuizTheme: string := "Educational Quiz"
  const DefaultMood: string := "Playful and Engaging"
  const DefaultTargetAge: string := "Children"

  /** Python truthiness of an optional string: `None` and `""` are false. */
  predicate Truthy(v: Option<string>) {
    v.Some? && v.value != ""
  }

  /** `v or default` for an optional string. */
  function Resolve(v: Option<string>, default: string): (r: string)
    ensures Truthy(v) ==> r == v.value
    ensures !Truthy(v) ==> r == default
    ensures default != "" ==> r != ""
  {
    if Truthy(v) then v.value else default
  }

  function ResolvedTheme(input: AudioScriptInput): string {
    Resolve(input.quizTheme, DefaultQuizTheme)
  }

  function ResolvedMood(input: AudioScriptInput): string {
    Resolve(input.mood, DefaultMood)
  }

  function ResolvedTargetAge(input: AudioScriptInput): string {
    Resolve(input.targetAge, DefaultTargetAge)
  }

  // The pieces of the user-prompt f-string, between the spliced values.
  const Heading: string := "\n# Music and Sound Effects Generation for Educational Audio Quiz\n\n## Script:\n"
  const ThemeLabel: string := "## Quiz Theme: "
  const MoodLabel: string := "## Overall Mood: "
  const AudienceLabel: string := "## Target Audience: "
  const Closing: string := "\nCreate appropriate music and sound effects descriptions for each track in this audio quiz script. The music should enhance the educational experience while keeping the listeners engaged. Generate the response following the JSON structure provided in the system instructions.\n"

  /** The user prompt with the script and the three resolved values filled in. */
  function UserPrompt(script: string, theme: string, mood: string, age: string): string {
    Heading + script + "\n" + "\n" + ThemeLabel + theme + "\n" + MoodLabel + mood + "\n" + AudienceLabel + age + "\n" + Closing
  }

  /** The fixed description of the expected JSON reply. */
  const JsonOutExample: string := @"{
  ""overall_bgm"": ""DESCRIPTION OF CONSISTENT BACKGROUND MUSIC THAT PLAYS THROUGHOUT THE ENTIRE QUIZ. JUST EXPLAIN THE MUSIC, THE BEAT, INSTRUMENTS AND MOOD"",
  ""script"": [
     [
        {
          ""dialogue"": ""DIALOGUE TEXT FOR TTS"",
          ""music"": ""DESCRIPTION OF BACKGROUND MUSIC/SFX THAT PLAYS DURING THIS DIALOGUE""
        },
        {
          ""music"": ""DESCRIPTION OF STANDALONE MUSIC OR SFX"",
          ""duration"": INTEGER_DURATION_IN_SECONDS
        }
    ],

    [
        {
          ""music"": ""DESCRIPTION OF STANDALONE MUSIC OR SFX"",
          ""duration"": INTEGER_DURATION_IN_SECONDS
        }
    ]
  ]
}"

  /** The fixed system prompt. */
  const SystemPrompt: string := @"You are an expert audio designer specializing in creating music and sound effects for educational audio content.

Your task is to create appropriate music and sound effect descriptions for an audio quiz script based on the user's input. Follow these guidelines precisely:

1.  **Overall Background Music (BGM):**
    *   Create a description for consistent background music (BGM) that fits the provided theme, mood, and target audience.
    *   The BGM should be subtle enough not to overpower the dialogue but present enough to maintain engagement.
    *   Specify style, instrumentation, tempo (e.g., upbeat but gentle), and overall feeling.

2.  **Track-Specific Audio (`script` array):**
    *   The `script` key in the JSON output must contain a list of lists. Each inner list represents a ""track"" from the input script (corresponding to track_1, track_2, etc.).
    *   Each track (inner list) contains one or more dictionary objects representing audio events within that track.
    *   **Dialogue Event:** If an event includes dialogue, the dictionary MUST contain:
        *   `""dialogue""`: The exact dialogue text provided in the input script for that segment.
        *   `""music""`: A description of the background music or sound effect that should play *concurrently* with this specific dialogue line. This might be a continuation of the overall BGM, a variation, or a specific SFX cue.
    *   **Standalone Music/SFX Event:** If an event is purely musical or a sound effect without concurrent dialogue, the dictionary MUST contain:
        *   `""music""`: A description of the standalone music piece (e.g., intro jingle, thinking music, answer reveal fanfare) or sound effect (e.g., ticking clock, correct answer chime, transition swoosh).
        *   `""duration""`: An integer representing the duration of this standalone audio event in seconds. This key MUST NOT be present if the `""dialogue""` key is present.
    *   Ensure the audio described for each track element logically enhances the content (e.g., intro music, question background, thinking pause, result sounds).

3.  **Music/SFX Description Quality:**
    *   Descriptions must be specific and actionable for an audio generation system or sound designer. Mention style (e.g., light orchestral, quirky electronic, ambient), instruments (e.g., ukulele, synth pads, xylophone), tempo (e.g., allegro, lento), mood (e.g., mysterious, celebratory, focused), and specific SFX sounds (e.g., gentle 'ding', cartoon 'boing', futuristic 'whoosh').
    *   Keep the target audience and overall mood in mind for all descriptions.

4.  **Output Format:**
    *   You MUST reply ONLY with a valid JSON object.
    *   Do not include any explanatory text before or after the JSON object.
    *   The JSON object must strictly adhere to the structure exemplified below:
        ```json
        {
          ""overall_bgm"": ""DESCRIPTION"",
          ""script"": [
             [ {""dialogue"": ""TEXT"", ""music"": ""DESC""}, {""music"": ""DESC"", ""duration"": N (mandtory)} ],
             [ {""music"": ""DESC"", ""duration"": N} ]
          ]
        }

        THE DURATION IS MANDATORY IF YOU HAVE JUST THE MUSIC FIELD AS ELEMENT
        
        ```

REPLY ONLY AS A VALID JSON OBJECT.
"

  /** `create_music_gen_prompt`: the returned dictionary. */
  function CreateMusicGenPrompt(input: AudioScriptInput): (r: map<string, string>)
    ensures r.Keys == {"prompt", "json_out_example", "system_prompt"}
    ensures r["prompt"] == UserPrompt(input.script, ResolvedTheme(input), ResolvedMood(input), ResolvedTargetAge(input))
    ensures r["json_out_example"] == JsonOutExample
    ensures r["system_prompt"] == SystemPrompt
  {
    map[
      "prompt" := UserPrompt(input.script, ResolvedTheme(input), ResolvedMood(input), ResolvedTargetAge(input)),
      "json_out_example" := JsonOutExample,
      "system_prompt" := SystemPrompt
    ]
  }

  /** A missing or empty theme becomes "Educational Quiz"; any other theme is kept as given. */
  lemma QuizThemeDefault(input: AudioScriptInput)
    ensures input.quizTheme == None || input.quizTheme == Some("") ==> ResolvedTheme(input) == "Educational Quiz"
    ensures input.quizTheme.Some? && input.quizTheme.value != "" ==> ResolvedTheme(input) == input.quizTheme.value
  {
  }

  /** A missing or empty mood becomes "Playful and Engaging"; any other mood is kept as given. */
  lemma MoodDefault(input: AudioScriptInput)
    ensures input.mood == None || input.mood == Some("") ==> ResolvedMood(input) == "Playful and Engaging"
    ensures input.mood.Some? && input.mood.value != "" ==> ResolvedMood(input) == input.mood.value
  {
  }

  /** A missing or empty target age becomes "Children"; any other value is kept as given. */
  lemma TargetAgeDefault(input: AudioScriptInput)
    ensures input.targetAge == None || input.targetAge == Some("") ==> ResolvedTargetAge(input) == "Children"
    ensures input.targetAge.Some? && input.targetAge.value != "" ==> ResolvedTargetAge(input) == input.targetAge.value
  {
  }

  // Where the pieces of a template shaped like the user prompt land, for
  // any heading, labels, closing text and line separator `nl`.

  /** The script starts right after the heading. */
  lemma ScriptAt(heading: string, script: string, nl: string, themeLabel: string, theme: string,
                   moodLabel: string, mood: string, ageLabel: string, age: string, closing: string)
    ensures OccursAt(heading + script + nl + nl + themeLabel + theme + nl + moodLabel + mood + nl + ageLabel + age + nl + closing, script, |heading|)
  {
  }

  /** The theme line starts one separator after the script. */
  lemma ThemeLineAt(heading: string, script: string, nl: string, themeLabel: string, theme: string,
                   moodLabel: string, mood: string, ageLabel: string, age: string, closing: string)
    ensures OccursAt(heading + script + nl + nl + themeLabel + theme + nl + moodLabel + mood + nl + ageLabel + age + nl + closing, nl + themeLabel + theme + nl, |heading| + |script| + |nl|)
  {
  }

  /** The mood line starts where the theme line ends its value. */
  lemma MoodLineAt(heading: string, script: string, nl: string, themeLabel: string, theme: string,
                   moodLabel: string, mood: string, ageLabel: string, age: string, closing: string)
    ensures OccursAt(heading + script + nl + nl + themeLabel + theme + nl + moodLabel + mood + nl + ageLabel + age + nl + closing, nl + moodLabel + mood + nl, |heading| + |script| + |nl| + |nl| + |themeLabel| + |theme|)
  {
  }

  /** The audience line starts where the mood line ends its value. */
  lemma AudienceLineAt(heading: string, script: string, nl: string, themeLabel: string, theme: string,
                   moodLabel: string, mood: string, ageLabel: string, age: string, closing: string)
    ensures OccursAt(heading + script + nl + nl + themeLabel + theme + nl + moodLabel + mood + nl + ageLabel + age + nl + closing, nl + ageLabel + age + nl, |heading| + |script| + |nl| + |nl| + |themeLabel| + |theme| + |nl| + |moodLabel| + |mood|)
  {
  }

  /** The four placements above, in order, for any template of that shape. */
  lemma {:induction false} TemplateLayout(heading: string, script: string, nl: string, themeLabel: string, theme: string,
                                         moodLabel: string, mood: string, ageLabel: string, age: string, closing: string)
    requires |nl| > 0
    ensures var p := heading + script + nl + nl + themeLabel + theme + nl + moodLabel + mood + nl + ageLabel + age + nl + closing;
      exists a :: OccursAt(p, script, a) &&
        exists b :: a + |script| < b && OccursAt(p, nl + themeLabel + theme + nl, b) &&
          exists c :: b < c && OccursAt(p, nl + moodLabel + mood + nl, c) &&
            exists d :: c < d && OccursAt(p, nl + ageLabel + age + nl, d)
  {
    var p := heading + script + nl + nl + themeLabel + theme + nl + moodLabel + mood + nl + ageLabel + age + nl + closing;
    ScriptAt(heading, script, nl, themeLabel, theme, moodLabel, mood, ageLabel, age, closing);
    ThemeLineAt(heading, script, nl, themeLabel, theme, moodLabel, mood, ageLabel, age, closing);
    MoodLineAt(heading, script, nl, themeLabel, theme, moodLabel, mood, ageLabel, age, closing);
    AudienceLineAt(heading, script, nl, themeLabel, theme, moodLabel, mood, ageLabel, age, closing);
    var a := |heading|;
    var b := a + |script| + |nl|;
    var c := b + |nl| + |themeLabel| + |theme|;
    var d := c + |nl| + |moodLabel| + |mood|;
    assert OccursAt(p, nl + ageLabel + age + nl, d);
    assert OccursAt(p, nl + moodLabel + mood + nl, c);
    assert OccursAt(p, nl + themeLabel + theme + nl, b);
    assert OccursAt(p, script, a);
  }

  /**
    * The user prompt holds the script verbatim, followed (in this order) by a
    * theme line, a mood line and an audience line, each a whole line carrying
    * its resolved value.
    */
  lemma {:induction false} UserPromptLayout(input: AudioScriptInput)
    ensures var p := CreateMusicGenPrompt(input)["prompt"];
      exists a :: OccursAt(p, input.script, a) &&
        exists b :: a + |input.script| < b && OccursAt(p, "\n" + ThemeLabel + ResolvedTheme(input) + "\n", b) &&
          exists c :: b < c && OccursAt(p, "\n" + MoodLabel + ResolvedMood(input) + "\n", c) &&
            exists d :: c < d && OccursAt(p, "\n" + AudienceLabel + ResolvedTargetAge(input) + "\n", d)
  {
    var script, theme, mood, age := input.script, ResolvedTheme(input), ResolvedMood(input), ResolvedTargetAge(input);
    assert CreateMusicGenPrompt(input)["prompt"] == UserPrompt(script, theme, mood, age);
    TemplateLayout(Heading, script, "\n", ThemeLabel, theme, MoodLabel, mood, AudienceLabel, age, Closing);
  }

  /** The system prompt and the JSON example are the same whatever the input. */
  lemma FixedTextsIgnoreInput(x: AudioScriptInput, y: AudioScriptInput)
    ensures CreateMusicGenPrompt(x)["system_prompt"] == CreateMusicGenPrompt(y)["system_prompt"]
    ensures CreateMusicGenPrompt(x)["json_out_example"] == CreateMusicGenPrompt(y)["json_out_example"]
  {
  }
}
