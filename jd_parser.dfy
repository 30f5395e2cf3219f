/** The record a parsed job description is handed around as. Parsing itself
    (a call to a text-generation service) is not part of this model. */
module JdParser {

  /** The fields of a parsed job description that the scorers and the
      finalize step read; every list is a JSON list of strings. */
  datatype ParsedJD = ParsedJD(
    title: string,
    company: string,
    location: string,
    industry: string,
    seniority: string,
    summary: string,
    requiredSkills: seq<string>,
    preferredSkills: seq<string>,
    techStack: seq<string>,
    keywords: seq<string>)
}
