/** The course routes: reading one course, and the owner's create, update and
    delete. */
module CourseRoutes {
  import opened Base
  import opened CourseModel
  import opened Database

  /** The course a create request stores. */
  function NewCourse(f: CourseFields, now: int): (c: Course)
    requires Accepted(f)
    ensures ValidCourse(c)
    ensures c.title == f.title.value && c.price == f.price.value && c.groupLink == f.groupLink.value
    ensures c.level == f.level && c.description == f.description && c.createdAt == now
  {
    Course(f.title.value, f.level, f.description, f.price.value, f.groupLink.value, now)
  }

  /** The update route's field-by-field `req.body.x || course.x`. A price of 0
      is falsy, so it keeps the stored price. */
  function MergeCourse(c: Course, f: CourseFields): (r: Course)
    ensures ValidCourse(c) ==> ValidCourse(r)
    ensures r.createdAt == c.createdAt
    ensures TruthyText(f.title) ==> r.title == f.title.value
    ensures !TruthyText(f.title) ==> r.title == c.title
    ensures TruthyText(f.level) ==> r.level == f.level
    ensures !TruthyText(f.level) ==> r.level == c.level
    ensures TruthyText(f.description) ==> r.description == f.description
    ensures !TruthyText(f.description) ==> r.description == c.description
    ensures TruthyNumber(f.price) ==> r.price == f.price.value
    ensures !TruthyNumber(f.price) ==> r.price == c.price
    ensures TruthyText(f.groupLink) ==> r.groupLink == f.groupLink.value
    ensures !TruthyText(f.groupLink) ==> r.groupLink == c.groupLink
  {
    c.(title := OrText(f.title, c.title),
       level := OrOptText(f.level, c.level),
       description := OrOptText(f.description, c.description),
       price := OrNumber(f.price, c.price),
       groupLink := OrText(f.groupLink, c.groupLink))
  }

  /** Sending the same update twice changes nothing the first did not. */
  lemma MergeIdempotent(c: Course, f: CourseFields)
    ensures MergeCourse(MergeCourse(c, f), f) == MergeCourse(c, f)
  {
  }

  /** An update carrying only falsy fields leaves the course as it was. */
  lemma MergeNothing(c: Course, f: CourseFields)
    requires !TruthyText(f.title) && !TruthyText(f.level) && !TruthyText(f.description)
    requires !TruthyNumber(f.price) && !TruthyText(f.groupLink)
    ensures MergeCourse(c, f) == c
  {
  }

  /** A non-zero price can never be brought to 0 through an update. */
  lemma PriceNeverZeroed(c: Course, f: CourseFields)
    requires c.price != 0
    ensures MergeCourse(c, f).price != 0
  {
  }

  /** `GET /:id`. */
  method GetCourse(db: Store, id: Id) returns (reply: Reply<Course>)
    ensures id !in db.courses ==> reply == Fail(404, "Course not found")
    ensures id in db.courses ==> reply == Ok(200, db.courses[id])
  {
    if id !in db.courses {
      return Fail(404, "Course not found");
    }
    reply := Ok(200, db.courses[id]);
  }

  /** `POST /` (owner only). `newId` is the ObjectId the database assigns. */
  method CreateCourse(db: Store, f: CourseFields, newId: Id, now: int) returns (reply: Reply<Course>)
    requires db.Valid()
    requires newId !in db.courses
    modifies db
    ensures db.Valid()
    ensures !Accepted(f) ==> reply == Fail(400, ValidationError) && unchanged(db)
    ensures Accepted(f) ==>
              && db.courses == old(db.courses)[newId := NewCourse(f, now)]
              && db.orders == old(db.orders) && db.users == old(db.users)
              && db.products == old(db.products) && db.outbox == old(db.outbox)
              && reply == Ok(201, NewCourse(f, now))
  {
    if !Accepted(f) {
      return Fail(400, ValidationError);
    }
    var course := NewCourse(f, now);
    PutCourse(db.orders, db.users, db.courses, newId, course);
    db.courses := db.courses[newId := course];
    reply := Ok(201, course);
  }

  /** `PUT /:id` (owner only). A stored course already has a title and a
      group link, so the merged course always passes validation. */
  method UpdateCourse(db: Store, id: Id, f: CourseFields) returns (reply: Reply<Course>)
    requires db.Valid()
    modifies db
    ensures db.Valid()
    ensures id !in old(db.courses) ==> reply == Fail(404, "Course not found") && unchanged(db)
    ensures id in old(db.courses) ==>
              && db.courses == old(db.courses)[id := MergeCourse(old(db.courses)[id], f)]
              && db.orders == old(db.orders) && db.users == old(db.users)
              && db.products == old(db.products) && db.outbox == old(db.outbox)
              && reply == Ok(200, db.courses[id])
  {
    if id !in db.courses {
      return Fail(404, "Course not found");
    }
    var course := db.courses[id];
    course := course.(title := OrText(f.title, course.title));
    course := course.(level := OrOptText(f.level, course.level));
    course := course.(description := OrOptText(f.description, course.description));
    course := course.(price := OrNumber(f.price, course.price));
    course := course.(groupLink := OrText(f.groupLink, course.groupLink));
    PutCourse(db.orders, db.users, db.courses, id, course);
    db.courses := db.courses[id := course];
    reply := Ok(200, course);
  }

  /** `DELETE /:id` (owner only): removes exactly that course. Orders that
      name it keep their items; a later payment simply grants nothing for it. */
  method DeleteCourse(db: Store, id: Id) returns (reply: Reply<string>)
    requires db.Valid()
    modifies db
    ensures db.Valid()
    ensures id !in old(db.courses) ==> reply == Fail(404, "Course not found") && unchanged(db)
    ensures id in old(db.courses) ==>
              && db.courses == old(db.courses) - {id}
              && db.orders == old(db.orders) && db.users == old(db.users)
              && db.products == old(db.products) && db.outbox == old(db.outbox)
              && reply == Ok(200, "Course removed")
  {
    if id !in db.courses {
      return Fail(404, "Course not found");
    }
    DropCourse(db.orders, db.users, db.courses, id);
    db.courses := db.courses - {id};
    reply := Ok(200, "Course removed");
  }

  /** A course created and then read back is the course the request described. */
  method CreateThenGet(db: Store, f: CourseFields, newId: Id, now: int)
    returns (created: Reply<Course>, read: Reply<Course>)
    requires db.Valid()
    requires newId !in db.courses
    requires Accepted(f)
    modifies db
    ensures created == Ok(201, NewCourse(f, now)) && read == Ok(200, NewCourse(f, now))
    ensures read.value.title == f.title.value && read.value.groupLink == f.groupLink.value
  {
    created := CreateCourse(db, f, newId, now);
    read := GetCourse(db, newId);
  }
}
