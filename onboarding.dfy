/** The onboarding form's validation (`validateForm` in `app/onboarding.tsx`):
    the rules for the name and the date of birth that fill the error map the
    screen shows. The two date comparisons are inputs. */
module Onboarding {
  import opened Wrappers
  import opened Text

  /** `/^\d{4}-\d{2}-\d{2}$/`: four ASCII digits, a dash, two digits, a dash
      and two digits, and nothing else. */
  predicate IsDateFormat(s: string) {
    |s| == 10 &&
    IsDigit(s[0]) && IsDigit(s[1]) && IsDigit(s[2]) && IsDigit(s[3]) && s[4] == '-' &&
    IsDigit(s[5]) && IsDigit(s[6]) && s[7] == '-' && IsDigit(s[8]) && IsDigit(s[9])
  }

  /** The error for the name field, if any: it is judged after trimming. */
  function NameError(name: string): (e: Option<string>)
    ensures e.None? <==> |Trim(name)| >= 2
    ensures Trim(name) == "" ==> e == Some("Name is required")
    ensures |Trim(name)| == 1 ==> e == Some("Name must be at least 2 characters")
  {
    var trimmed := Trim(name);
    if trimmed == "" then Some("Name is required")
    else if |trimmed| < 2 then Some("Name must be at least 2 characters")
    else None
  }

  /** The error for the date of birth, if any. `afterToday` and `before1900`
      are the outcomes of comparing the parsed date with the clock and with
      1900-01-01; they are consulted only for a well-formed date, and the
      second one wins when both hold. */
  function DobError(dob: string, afterToday: bool, before1900: bool): (e: Option<string>)
    ensures e.None? <==> dob != "" && IsDateFormat(dob) && !afterToday && !before1900
    ensures dob == "" ==> e == Some("Date of birth is required")
    ensures dob != "" && !IsDateFormat(dob) ==> e == Some("Please enter date in YYYY-MM-DD format")
    ensures IsDateFormat(dob) && before1900 ==> e == Some("Please enter a valid date of birth")
    ensures IsDateFormat(dob) && afterToday && !before1900 ==> e == Some("Date of birth cannot be in the future")
  {
    if dob == "" then Some("Date of birth is required")
    else if !IsDateFormat(dob) then Some("Please enter date in YYYY-MM-DD format")
    else if before1900 then Some("Please enter a valid date of birth")
    else if afterToday then Some("Date of birth cannot be in the future")
    else None
  }

  /** The error map: one entry per field that has an error. */
  function FormErrors(name: string, dob: string, afterToday: bool, before1900: bool): (m: map<string, string>)
    ensures m.Keys <= {"name", "dob"}
    ensures "name" in m <==> NameError(name).Some?
    ensures "dob" in m <==> DobError(dob, afterToday, before1900).Some?
    ensures "name" in m ==> m["name"] == NameError(name).value
    ensures "dob" in m ==> m["dob"] == DobError(dob, afterToday, before1900).value
  {
    var withName := if NameError(name).Some? then map["name" := NameError(name).value] else map[];
    if DobError(dob, afterToday, before1900).Some? then withName["dob" := DobError(dob, afterToday, before1900).value]
    else withName
  }

  /** The screen's form state and its error map. */
  class OnboardingForm {
    var name: string
    var dob: string
    var language: string
    var errors: map<string, string>

    /** The initial state: empty fields, English, no errors. */
    constructor ()
      ensures name == "" && dob == "" && language == "en" && errors == map[]
    {
      name := "";
      dob := "";
      language := "en";
      errors := map[];
    }

    /** `validateForm`: builds the error map field by field, stores it, and
        reports whether it is empty. The language is never checked. */
    method ValidateForm(afterToday: bool, before1900: bool) returns (valid: bool)
      modifies this`errors
      ensures errors == FormErrors(name, dob, afterToday, before1900)
      ensures valid <==> errors == map[]
    {
      var newErrors: map<string, string> := map[];
      var trimmed := Trim(name);
      if trimmed == "" {
        newErrors := newErrors["name" := "Name is required"];
      } else if |trimmed| < 2 {
        newErrors := newErrors["name" := "Name must be at least 2 characters"];
      }
      ghost var withName := newErrors;
      assert withName == if NameError(name).Some? then map["name" := NameError(name).value] else map[];
      if dob == "" {
        newErrors := newErrors["dob" := "Date of birth is required"];
      } else {
        if !IsDateFormat(dob) {
          newErrors := newErrors["dob" := "Please enter date in YYYY-MM-DD format"];
        } else {
          if afterToday {
            newErrors := newErrors["dob" := "Date of birth cannot be in the future"];
          }
          if before1900 {
            newErrors := newErrors["dob" := "Please enter a valid date of birth"];
          }
        }
      }
      assert newErrors == if DobError(dob, afterToday, before1900).Some? then withName["dob" := DobError(dob, afterToday, before1900).value] else withName;
      errors := newErrors;
      valid := |newErrors| == 0;
    }
  }

  /** The form is valid exactly when the trimmed name has at least two
      characters and the date of birth is well formed, not in the future and
      not before 1900. */
  lemma ValidIff(name: string, dob: string, afterToday: bool, before1900: bool)
    ensures FormErrors(name, dob, afterToday, before1900) == map[] <==>
      |Trim(name)| >= 2 && IsDateFormat(dob) && !afterToday && !before1900
  {
    var m := FormErrors(name, dob, afterToday, before1900);
    if m == map[] {
      assert "name" !in m && "dob" !in m;
    }
  }

  /** A malformed date is reported as such whatever the date comparisons
      would give. */
  lemma MalformedDateIgnoresComparisons(dob: string, a1: bool, b1: bool, a2: bool, b2: bool)
    requires dob != "" && !IsDateFormat(dob)
    ensures DobError(dob, a1, b1) == DobError(dob, a2, b2)
  {
  }

  /** Examples of the format: dashes in the right places and ASCII digits
      only. */
  lemma DateFormatExamples()
    ensures IsDateFormat("1990-05-17")
    ensures !IsDateFormat("1990-5-17")
    ensures !IsDateFormat("1990/05/17")
    ensures !IsDateFormat("1990-05-17 ")
  {
  }
}
