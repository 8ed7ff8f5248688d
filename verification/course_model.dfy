/** The course schema (server/models/Course.js). */
module CourseModel {
  import opened Base

  /** A stored course. `groupLink` is the invite link that buyers are e-mailed. */
  datatype Course = Course(title: string, level: Option<string>, description: Option<string>,
                           price: int, groupLink: string, createdAt: int)

  /** title, price and groupLink are required; a required string may not be
      empty, a required number may be 0. */
  predicate ValidCourse(c: Course)
  {
    c.title != "" && c.groupLink != ""
  }

  /** The five fields a create or update request may carry. */
  datatype CourseFields = CourseFields(title: Option<string>, level: Option<string>,
                                       description: Option<string>, price: Option<int>,
                                       groupLink: Option<string>)

  /** A create request that passes the schema's required checks. */
  predicate Accepted(f: CourseFields)
  {
    TruthyText(f.title) && f.price.Some? && TruthyText(f.groupLink)
  }
}
